/** Governed memory (domain.py, store.py): the record, version compatibility and the lifecycle rules.
    The store and its governance log are in MemoryStore. */
module Governance {
  import opened Common
  import opened Canonical

  datatype MemoryState = Pending | Active | Quarantined | Rejected | Superseded | Revoked | Expired

  datatype Action = Certify | Activate | Quarantine | Reject | Supersede | Revoke | Expire

  datatype Semantics = Positive | Negative | Inconclusive

  datatype ReasonCode =
    | EvidenceAccepted | NeedsInvestigation | InvalidBinding | InsufficientEvidence | PolicyConflict
    | NewContradictoryEvidence | PolicyChange | CompatibilityInvalidated | DataQuality | OtherBounded

  datatype CompatibilityPolicy = Exact | SemverPatch | SemverMinor

  datatype Memory = Memory(
    id: Uuid,
    tenant: string,
    service: string,
    serviceVersion: string,
    policy: CompatibilityPolicy,
    action: string,
    outcomeScore: real,
    confidence: real,
    valid: bool,
    state: MemoryState,
    supersededBy: Option<Uuid>,
    sourceIncident: Option<Uuid>,
    observedBy: Option<string>,
    reviewedBy: Option<string>,
    reviewedAt: Option<int>,
    observationDigest: Option<Digest>,
    assessmentDigest: Option<Digest>,
    verdictDigest: Option<Digest>,
    memoryDigest: Digest,
    governanceVersion: nat,
    expiresAt: Option<int>,
    supersededAt: Option<int>,
    revokedAt: Option<int>,
    embeddingSpace: string,
    createdAt: int)
  {
    /** derive_policy_fields: the outcome's meaning is the sign of its score. */
    function Outcome(): Semantics {
      if outcomeScore > 0.0 then Positive else if outcomeScore < 0.0 then Negative else Inconclusive
    }
  }

  // ----- version_compatibility -----

  predicate IsDigit(c: char) {
    '0' <= c <= '9'
  }

  function DigitPrefix(s: string): (n: nat)
    ensures n <= |s|
  {
    if s == "" || !IsDigit(s[0]) then 0 else 1 + DigitPrefix(s[1..])
  }

  predicate IsNumeral(s: string) {
    s == "0" || (s != "" && s[0] != '0' && forall c :: c in s ==> IsDigit(c))
  }

  predicate IsSuffix(s: string) {
    s == "" || (|s| > 1 && (s[0] == '-' || s[0] == '+')
                && forall c :: c in s[1..] ==> IsDigit(c) || 'A' <= c <= 'Z' || 'a' <= c <= 'z' || c == '.' || c == '-')
  }

  datatype Semver = Semver(major: string, minor: string)

  function Unmarked(version: string): string {
    if version != "" && (version[0] == 'v' || version[0] == 'V') then version[1..] else version
  }

  /** The number a text starts with, and what follows it. */
  function LeadingNumeral(s: string): Option<(string, string)> {
    var n := DigitPrefix(s);
    if IsNumeral(s[..n]) then Some((s[..n], s[n..])) else None
  }

  function AfterPatch(s: string): Option<string> {
    if s != "" && s[0] == '.' then
      var patch := LeadingNumeral(s[1..]);
      if patch.Some? then Some(patch.value.1) else None
    else Some(s)
  }

  /** The version pattern of store.py: an optional v, major.minor, an optional patch and an
      optional pre-release or build suffix. */
  function ParseSemver(version: string): Option<Semver> {
    var major := LeadingNumeral(Unmarked(version));
    if major.None? || major.value.1 == "" || major.value.1[0] != '.' then None
    else
      var minor := LeadingNumeral(major.value.1[1..]);
      if minor.None? then None
      else
        var suffix := AfterPatch(minor.value.1);
        if suffix.Some? && IsSuffix(suffix.value) then Some(Semver(major.value.0, minor.value.0)) else None
  }

  function VersionCompatibility(memoryVersion: string, incidentVersion: string, policy: CompatibilityPolicy): (r: real)
    ensures 0.0 <= r <= 1.0
    ensures r > 0.2 <==> SameLine(memoryVersion, incidentVersion)
    ensures r == 1.0 <==> memoryVersion == incidentVersion
                          || (policy == SemverPatch && SameMinorLine(memoryVersion, incidentVersion))
                          || (policy == SemverMinor && SameLine(memoryVersion, incidentVersion))
    ensures r == 0.0 ==> ParseSemver(memoryVersion).Some? && ParseSemver(incidentVersion).Some?
  {
    if memoryVersion == incidentVersion then 1.0
    else
      var memory, incident := ParseSemver(memoryVersion), ParseSemver(incidentVersion);
      if memory.None? || incident.None? then 0.2
      else
        var sameMajor := memory.value.major == incident.value.major;
        var sameMinor := sameMajor && memory.value.minor == incident.value.minor;
        if policy == SemverPatch && sameMinor then 1.0
        else if policy == SemverMinor && sameMajor then 1.0
        else if !sameMajor then 0.0
        else if !sameMinor then 0.35
        else 0.8
  }

  /** Two versions are equal or share a major. */
  predicate SameLine(a: string, b: string) {
    || a == b
    || (ParseSemver(a).Some? && ParseSemver(b).Some? && ParseSemver(a).value.major == ParseSemver(b).value.major)
  }

  /** Two parsable versions share major and minor. */
  predicate SameMinorLine(a: string, b: string) {
    && ParseSemver(a).Some? && ParseSemver(b).Some?
    && ParseSemver(a).value.major == ParseSemver(b).value.major && ParseSemver(a).value.minor == ParseSemver(b).value.minor
  }

  predicate Unparsable(a: string, b: string) {
    ParseSemver(a).None? || ParseSemver(b).None?
  }

  /** The score of two different versions is one of five, and which one is decided by whether both
      parse, how far they agree, and the memory's policy. */
  lemma CompatibilityTable(a: string, b: string, policy: CompatibilityPolicy)
    requires a != b
    ensures var r := VersionCompatibility(a, b, policy);
            && (r == 0.2 <==> Unparsable(a, b))
            && (r == 0.0 <==> !Unparsable(a, b) && !SameLine(a, b))
            && (r == 0.35 <==> SameLine(a, b) && !SameMinorLine(a, b) && policy != SemverMinor)
            && (r == 0.8 <==> SameMinorLine(a, b) && policy == Exact)
            && (r == 1.0 <==> (SameMinorLine(a, b) && policy != Exact) || (SameLine(a, b) && policy == SemverMinor))
  {
  }

  /** Compatibility does not depend on which version is the memory's. */
  lemma CompatibilityIsSymmetric(a: string, b: string, policy: CompatibilityPolicy)
    ensures VersionCompatibility(a, b, policy) == VersionCompatibility(b, a, policy)
  {
  }

  // ----- _governance_target -----

  datatype Request = Request(
    tenant: string, actor: string, action: Action, reason: string, reasonCode: ReasonCode,
    replacement: Option<Uuid>)

  function TargetOf(a: Action): MemoryState {
    match a
    case Certify => Active
    case Activate => Active
    case Quarantine => Quarantined
    case Reject => Rejected
    case Supersede => Superseded
    case Revoke => Revoked
    case Expire => Expired
  }

  predicate Allowed(from: MemoryState, to: MemoryState) {
    match from
    case Pending => to == Active || to == Quarantined || to == Rejected
    case Active => to == Quarantined || to == Superseded || to == Revoked || to == Expired
    case Quarantined => to == Active || to == Rejected || to == Revoked || to == Expired
    case Rejected => false
    case Superseded => false
    case Revoked => false
    case Expired => false
  }

  predicate RevocationReason(c: ReasonCode) {
    c == NewContradictoryEvidence || c == PolicyChange || c == CompatibilityInvalidated
    || c == DataQuality || c == OtherBounded
  }

  predicate IsSpace(c: char) {
    c == ' ' || '\t' <= c <= '\r'
  }

  predicate IsBlank(s: string) {
    forall c :: c in s ==> IsSpace(c)
  }

  /** A memory that may replace `memory`. */
  predicate AdmissibleReplacement(candidate: Memory, memory: Memory, replacement: Option<Uuid>, now: int) {
    && Some(candidate.id) == replacement
    && candidate.tenant == memory.tenant
    && candidate.state == Active
    && candidate.valid
    && candidate.service == memory.service
    && VersionCompatibility(candidate.serviceVersion, memory.serviceVersion, candidate.policy) == 1.0
    && candidate.Outcome() != Inconclusive
    && (candidate.expiresAt.None? || candidate.expiresAt.value > now)
  }

  /** The first admissible replacement in store order. */
  function FirstReplacement(candidates: seq<Memory>, memory: Memory, replacement: Option<Uuid>, now: int): (r: Option<Memory>)
    ensures r.Some? ==> r.value in candidates && AdmissibleReplacement(r.value, memory, replacement, now)
    ensures r.None? ==> forall c :: c in candidates ==> !AdmissibleReplacement(c, memory, replacement, now)
  {
    if candidates == [] then None
    else if AdmissibleReplacement(candidates[0], memory, replacement, now) then Some(candidates[0])
    else FirstReplacement(candidates[1..], memory, replacement, now)
  }

  /** The versions are equal, or agree as far as the candidate's own policy asks. */
  predicate Compatible(candidate: Memory, memory: Memory) {
    || candidate.serviceVersion == memory.serviceVersion
    || (candidate.policy == SemverPatch && SameMinorLine(candidate.serviceVersion, memory.serviceVersion))
    || (candidate.policy == SemverMinor && SameLine(candidate.serviceVersion, memory.serviceVersion))
  }

  /** Another memory that stands in for a superseded one: live authority of one scope, with a
      conclusive outcome and a compatible version. */
  predicate StandsIn(m: Memory, memory: Memory, now: int) {
    && m.id != memory.id && m.tenant == memory.tenant && m.service == memory.service
    && m.state == Active && m.valid && m.outcomeScore != 0.0 && Compatible(m, memory)
    && (m.expiresAt.Some? ==> now < m.expiresAt.value)
  }

  /** When a state may follow another: nothing returns to review or stays put, the four final states
      are final, review does not end in retirement, and only live authority is superseded. */
  predicate MayFollow(from: MemoryState, to: MemoryState) {
    && to != Pending && to != from && (from == Pending || from == Active || from == Quarantined)
    && (from == Pending ==> to == Active || to == Quarantined || to == Rejected)
    && (to == Superseded ==> from == Active)
    && (to == Rejected ==> from != Active)
  }

  /** The reasons that belong to a first review. */
  predicate ReviewReason(c: ReasonCode) {
    c.EvidenceAccepted? || c.NeedsInvestigation? || c.InvalidBinding? || c.InsufficientEvidence? || c.PolicyConflict?
  }

  /** What a request must meet, whatever the order in which it is checked. */
  predicate Grantable(memory: Memory, r: Request, memories: seq<Memory>, now: int) {
    && MayFollow(memory.state, TargetOf(r.action))
    && (r.action == Certify ==> memory.outcomeScore != 0.0 && r.reasonCode == EvidenceAccepted)
    && (r.action == Certify || r.action == Activate ==> memory.observedBy != Some(r.actor))
    && (r.action == Revoke ==> !ReviewReason(r.reasonCode))
    && (r.reasonCode == OtherBounded ==> exists c :: c in r.reason && c != ' ' && !('\t' <= c <= '\r'))
    && (r.replacement.Some? <==> r.action == Supersede)
    && (r.action == Supersede ==> exists m :: m in memories && r.replacement == Some(m.id) && StandsIn(m, memory, now))
  }

  lemma AllowedExactly(from: MemoryState, to: MemoryState)
    ensures Allowed(from, to) <==> MayFollow(from, to)
  {
  }

  lemma ReplacementExactly(memories: seq<Memory>, memory: Memory, replacement: Option<Uuid>, now: int)
    ensures var r := FirstReplacement(memories, memory, replacement, now);
            r.Some? && r.value.id != memory.id
            <==> exists m :: m in memories && replacement == Some(m.id) && StandsIn(m, memory, now)
  {
    forall m | m in memories
      ensures AdmissibleReplacement(m, memory, replacement, now) && m.id != memory.id
              <==> replacement == Some(m.id) && StandsIn(m, memory, now)
    {
    }
  }

  function GovernanceTarget(memory: Memory, r: Request, memories: seq<Memory>, now: int): (t: Result<MemoryState>)
    ensures t.Ok? ==> t.value == TargetOf(r.action) && Allowed(memory.state, t.value)
    ensures t.Ok? && t.value == Active ==> memory.observedBy != Some(r.actor)
    ensures t.Ok? && t.value == Superseded ==>
              exists m :: m in memories && AdmissibleReplacement(m, memory, r.replacement, now) && m.id != memory.id
    ensures t.Ok? && t.value != Superseded ==> r.replacement == None
  {
    var target := TargetOf(r.action);
    if !Allowed(memory.state, target) then Err("cannot transition")
    else if r.action == Certify && memory.Outcome() == Inconclusive
    then Err("inconclusive evidence cannot be certified")
    else if r.action == Certify && r.reasonCode != EvidenceAccepted
    then Err("certification requires EVIDENCE_ACCEPTED")
    else if r.action == Revoke && !RevocationReason(r.reasonCode) then Err("invalid revocation reason code")
    else if target == Active && memory.observedBy == Some(r.actor)
    then Err("independent reviewer required for activation")
    else if r.reasonCode == OtherBounded && IsBlank(r.reason) then Err("OTHER_BOUNDED requires a reviewer note")
    else if target == Superseded then
      var replacement := FirstReplacement(memories, memory, r.replacement, now);
      if replacement.None? || replacement.value.id == memory.id
      then Err("active same-tenant replacement memory required")
      else Ok(target)
    else if r.replacement.Some? then Err("replacement memory is only valid for supersession")
    else Ok(target)
  }

  /** A request is granted exactly when it meets all of them. */
  lemma GrantedExactly(memory: Memory, r: Request, memories: seq<Memory>, now: int)
    ensures GovernanceTarget(memory, r, memories, now).Ok? <==> Grantable(memory, r, memories, now)
  {
    AllowedExactly(memory.state, TargetOf(r.action));
    ReplacementExactly(memories, memory, r.replacement, now);
  }

  function Governed(memory: Memory, r: Request, target: MemoryState, now: int): Memory {
    memory.(
      state := target,
      valid := target == Active,
      reviewedBy := Some(r.actor),
      reviewedAt := Some(now),
      supersededBy := r.replacement,
      governanceVersion := memory.governanceVersion + 1,
      supersededAt := if target == Superseded then Some(now) else memory.supersededAt,
      revokedAt := if target == Revoked then Some(now) else memory.revokedAt,
      expiresAt := if target == Expired && memory.expiresAt.None? then Some(now) else memory.expiresAt)
  }
}
