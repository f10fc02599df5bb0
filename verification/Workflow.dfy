/** The authority workflow: states, capabilities, the compare-and-swap row update and the
    coordinator's authority checks (workflow.py). */
module Workflow {
  import opened Common
  import opened Canonical

  datatype State =
    | Investigating
    | AwaitingOperatorApproval
    | ApprovedAwaitingExecution
    | ObservingPostcheck
    | PostcheckReady
    | PostcheckUnavailable
    | PendingReview
    | Reviewed

  datatype Channel = Webmcp | Ui | SystemChannel

  datatype Role = Agent | Operator | Reviewer | SystemRole

  function StateName(s: State): string {
    match s
    case Investigating => "INVESTIGATING"
    case AwaitingOperatorApproval => "AWAITING_OPERATOR_APPROVAL"
    case ApprovedAwaitingExecution => "APPROVED_AWAITING_EXECUTION"
    case ObservingPostcheck => "OBSERVING_POSTCHECK"
    case PostcheckReady => "POSTCHECK_READY"
    case PostcheckUnavailable => "POSTCHECK_UNAVAILABLE"
    case PendingReview => "PENDING_REVIEW"
    case Reviewed => "REVIEWED"
  }

  const ABSENT := "ABSENT"

  /** The ledger stores states by name; no two names coincide, and none is "ABSENT". */
  lemma StateNamesDistinct(a: State, b: State)
    ensures StateName(a) == StateName(b) ==> a == b
    ensures StateName(a) != ABSENT
  {
    // All nine names have different lengths.
    assert |StateName(a)| == |StateName(b)| ==> a == b;
    assert |StateName(a)| != |ABSENT|;
  }

  function Capabilities(s: State): seq<string> {
    match s
    case Investigating => ["inspect_incident", "propose_mitigation"]
    case AwaitingOperatorApproval => ["inspect_incident"]
    case ApprovedAwaitingExecution => ["inspect_incident"]
    case ObservingPostcheck => ["inspect_incident"]
    case PostcheckReady => ["inspect_incident", "record_postcheck_assessment"]
    case PostcheckUnavailable => ["inspect_incident"]
    case PendingReview => ["inspect_incident"]
    case Reviewed => ["inspect_incident", "recall_reviewed_memory"]
  }

  datatype Snapshot = Snapshot(
    workflowId: Uuid,
    tenant: string,
    state: State,
    epoch: nat,
    active: bool,
    proposalHash: Option<Digest>,
    operatorSubject: Option<string>,
    reviewerSubject: Option<string>)
  {
    function AvailableTools(): seq<string> {
      if active then Capabilities(state) else []
    }
  }

  /** `subject or current`: an absent or empty subject keeps the stored one. */
  function OrElse(subject: Option<string>, stored: Option<string>): Option<string> {
    if subject.Some? && subject.value != "" then subject else stored
  }

  function Moved(row: Snapshot, target: State, operator: Option<string>, reviewer: Option<string>): Snapshot {
    row.(state := target,
         epoch := row.epoch + 1,
         operatorSubject := OrElse(operator, row.operatorSubject),
         reviewerSubject := OrElse(reviewer, row.reviewerSubject))
  }

  function Invalidated(row: Snapshot): Snapshot {
    row.(active := false, epoch := row.epoch + 1)
  }

  // ----- the repository's compare-and-swap, as a function of the stored row -----

  function SwapRow(current: Option<Snapshot>, epoch: nat, state: State, target: State,
                   operator: Option<string>, reviewer: Option<string>): Result<Snapshot>
  {
    if current.None? then Err("workflow not found")
    else if !current.value.active then Err("workflow is inactive")
    else if current.value.epoch != epoch || current.value.state != state then Err("stale workflow state or epoch")
    else Ok(Moved(current.value, target, operator, reviewer))
  }

  function InvalidateRow(current: Option<Snapshot>, epoch: nat): Result<Snapshot> {
    if current.None? then Err("workflow not found")
    else if !current.value.active || current.value.epoch != epoch then Err("stale workflow state or epoch")
    else Ok(Invalidated(current.value))
  }

  // ----- racing callers -----

  datatype Attempt =
    | SwapAttempt(epoch: nat, state: State, target: State, operator: Option<string>, reviewer: Option<string>)
    | InvalidateAttempt(epoch: nat)

  function TryAttempt(row: Snapshot, a: Attempt): Result<Snapshot> {
    match a
    case SwapAttempt(epoch, state, target, operator, reviewer) =>
      SwapRow(Some(row), epoch, state, target, operator, reviewer)
    case InvalidateAttempt(epoch) => InvalidateRow(Some(row), epoch)
  }

  function AfterAttempt(row: Snapshot, a: Attempt): Snapshot {
    var r := TryAttempt(row, a);
    if r.Ok? then r.value else row
  }

  /** The row after callers were served one by one, in the order their transactions committed. */
  function AfterAttempts(row: Snapshot, attempts: seq<Attempt>): Snapshot
    decreases attempts
  {
    if attempts == [] then row else AfterAttempts(AfterAttempt(row, attempts[0]), attempts[1..])
  }

  /** Whether the k-th caller wins. */
  predicate Wins(row: Snapshot, attempts: seq<Attempt>, k: nat)
    requires k < |attempts|
  {
    TryAttempt(AfterAttempts(row, attempts[..k]), attempts[k]).Ok?
  }

  lemma {:induction false} AfterAttemptsAppend(row: Snapshot, xs: seq<Attempt>, a: Attempt)
    ensures AfterAttempts(row, xs + [a]) == AfterAttempt(AfterAttempts(row, xs), a)
    decreases xs
  {
    if xs == [] {
      assert [a][1..] == [];
      assert AfterAttempts(row, [a]) == AfterAttempts(AfterAttempt(row, a), []);
    } else {
      assert (xs + [a])[1..] == xs[1..] + [a];
      AfterAttemptsAppend(AfterAttempt(row, xs[0]), xs[1..], a);
    }
  }

  predicate Absent(subject: Option<string>) {
    subject.None? || |subject.value| == 0
  }

  /** In every race a caller wins exactly when the row it meets is active at the epoch, and for a swap in
      the state, that it names; a winning swap changes state and epoch and names the subjects it was
      given, a winning invalidation only deactivates, and a loser changes nothing. */
  lemma WinsExactly(row: Snapshot, attempts: seq<Attempt>, k: nat)
    requires k < |attempts|
    ensures var met, a, then_ := AfterAttempts(row, attempts[..k]), attempts[k], AfterAttempts(row, attempts[..k + 1]);
            && (Wins(row, attempts, k) <==> met.active && met.epoch == a.epoch && (a.SwapAttempt? ==> met.state == a.state))
            && (!Wins(row, attempts, k) ==> then_ == met)
            && (Wins(row, attempts, k) && a.InvalidateAttempt? ==> then_ == met.(active := false, epoch := met.epoch + 1))
            && (Wins(row, attempts, k) && a.SwapAttempt? ==>
                  then_ == met.(state := a.target, epoch := met.epoch + 1,
                                operatorSubject := if Absent(a.operator) then met.operatorSubject else a.operator,
                                reviewerSubject := if Absent(a.reviewer) then met.reviewerSubject else a.reviewer))
  {
    assert attempts[..k + 1] == attempts[..k] + [attempts[k]];
    AfterAttemptsAppend(row, attempts[..k], attempts[k]);
  }

  /** Which tools a workflow offers: none once it is inactive, inspection always, and each of the three
      acting tools in one state only. */
  lemma ToolsExactly(row: Snapshot, tool: string)
    ensures tool in row.AvailableTools() <==>
            row.active && (|| tool == "inspect_incident"
                           || (tool == "propose_mitigation" && row.state == Investigating)
                           || (tool == "record_postcheck_assessment" && row.state == PostcheckReady)
                           || (tool == "recall_reviewed_memory" && row.state == Reviewed))
  {
    if row.active {
      assert row.AvailableTools()[0] == "inspect_incident";
      if |row.AvailableTools()| == 2 {
        var second := row.AvailableTools()[1];
        assert forall k :: 0 <= k < 2 ==> row.AvailableTools()[k] == "inspect_incident" || row.AvailableTools()[k] == second;
      }
    }
  }

  /** Epochs never go back, a winner moves the epoch past the one it named, and an inactive row
      never changes. */
  lemma {:induction false} EpochsOnlyGrow(row: Snapshot, attempts: seq<Attempt>, i: nat, j: nat)
    requires i <= j <= |attempts|
    ensures AfterAttempts(row, attempts[..i]).epoch <= AfterAttempts(row, attempts[..j]).epoch
    ensures !AfterAttempts(row, attempts[..i]).active
            ==> AfterAttempts(row, attempts[..j]) == AfterAttempts(row, attempts[..i])
    decreases j - i
  {
    if i < j {
      EpochsOnlyGrow(row, attempts, i, j - 1);
      assert attempts[..j] == attempts[..j - 1] + [attempts[j - 1]];
      AfterAttemptsAppend(row, attempts[..j - 1], attempts[j - 1]);
    }
  }

  /** Of any callers racing on one epoch at most one wins, whatever they ask for; and nobody
      wins once a caller has invalidated the workflow. */
  lemma AtMostOneWinnerPerEpoch(row: Snapshot, attempts: seq<Attempt>, i: nat, j: nat)
    requires i < j < |attempts|
    requires Wins(row, attempts, i) && Wins(row, attempts, j)
    ensures attempts[i].epoch < attempts[j].epoch
    ensures attempts[i].SwapAttempt?
  {
    assert attempts[..i + 1] == attempts[..i] + [attempts[i]];
    AfterAttemptsAppend(row, attempts[..i], attempts[i]);
    EpochsOnlyGrow(row, attempts, i + 1, j);
  }

  /** The number of winners is exactly the distance the epoch travelled. */
  function Winners(row: Snapshot, attempts: seq<Attempt>): nat
    decreases attempts
  {
    if attempts == [] then 0
    else (if TryAttempt(row, attempts[0]).Ok? then 1 else 0) + Winners(AfterAttempt(row, attempts[0]), attempts[1..])
  }

  lemma {:induction false} EpochCountsWinners(row: Snapshot, attempts: seq<Attempt>)
    ensures AfterAttempts(row, attempts).epoch == row.epoch + Winners(row, attempts)
    decreases attempts
  {
    if attempts != [] {
      EpochCountsWinners(AfterAttempt(row, attempts[0]), attempts[1..]);
    }
  }

  // ----- authority checks -----

  /** Who may move a workflow out of `state`, as a table: the channel and the role. */
  predicate HoldsAuthority(state: State, channel: Channel, role: Role, allowLegacyUi: bool) {
    match state
    case Investigating =>
      (channel == Webmcp && role == Agent) || (allowLegacyUi && channel == Ui && role == Operator)
    case AwaitingOperatorApproval => channel == Ui && role == Operator
    case ApprovedAwaitingExecution => channel == Ui && role == Operator
    case ObservingPostcheck => channel == SystemChannel && role == SystemRole
    case PostcheckReady => channel == Webmcp && role == Agent
    case PostcheckUnavailable => channel == Ui && role == Operator
    case PendingReview => channel == Ui && role == Reviewer
    case Reviewed => channel == Ui && role == Operator
  }

  function RequiredRole(expected: State, channel: Channel, role: Role, allowLegacyUi: bool): Result<Role> {
    if expected == Investigating then
      if allowLegacyUi && channel == Ui && role == Operator then Ok(Operator)
      else if channel == Webmcp && role == Agent then Ok(Agent)
      else Err("proposal transition requires WebMCP agent authority")
    else if expected == ObservingPostcheck then
      if channel != SystemChannel || role != SystemRole then Err("postcheck state transition requires system authority")
      else Ok(SystemRole)
    else if expected == PostcheckReady then
      if channel != Webmcp || role != Agent then Err("postcheck assessment requires WebMCP agent authority")
      else Ok(Agent)
    else if channel != Ui then Err("protected transition is not authorized through WebMCP")
    else Ok(if expected == PendingReview then Reviewer else Operator)
  }

  /** validate_transition.  It succeeds exactly for a caller the authority table admits, naming
      the live row's exact epoch and state, and never for a reviewer who is the stored operator. */
  function ValidateTransition(current: Option<Snapshot>, epoch: nat, expected: State,
                              channel: Channel, actor: string, role: Role,
                              allowLegacyUi: bool := false): (r: Result<Snapshot>)
    ensures r.Ok? <==>
            && HoldsAuthority(expected, channel, role, allowLegacyUi)
            && current.Some?
            && current.value.active && current.value.epoch == epoch && current.value.state == expected
            && (expected == PendingReview ==> current.value.operatorSubject != Some(actor))
    ensures r.Ok? ==> Some(r.value) == current
  {
    var required := RequiredRole(expected, channel, role, allowLegacyUi);
    if required.Err? then Err(required.reason)
    else if role != required.value then Err("role required for workflow transition")
    else if current.None? then Err("workflow not found")
    else
      var row := current.value;
      if !row.active || row.epoch != epoch || row.state != expected then Err("stale workflow state or epoch")
      else if required.value == Reviewer && row.operatorSubject == Some(actor)
      then Err("independent reviewer subject required")
      else Ok(row)
  }

  // ----- the in-memory repository -----

  type Key = (string, Uuid)

  class WorkflowRepository {
    var workflows: map<Key, Snapshot>

    constructor ()
      ensures workflows == map[]
    {
      workflows := map[];
    }

    /** The stored row, if any: dict.get. */
    function Get(workflowId: Uuid, tenant: string): (r: Option<Snapshot>)
      reads this
      ensures r.Some? <==> (tenant, workflowId) in workflows
      ensures r.Some? ==> r.value == workflows[(tenant, workflowId)]
    {
      if (tenant, workflowId) in workflows then Some(workflows[(tenant, workflowId)]) else None
    }

    /** setdefault: the first snapshot stored under a key stays. */
    method Ensure(snapshot: Snapshot) returns (stored: Snapshot)
      modifies this
      ensures var key := (snapshot.tenant, snapshot.workflowId);
              && key in workflows && stored == workflows[key]
              && stored == (if key in old(workflows) then old(workflows[key]) else snapshot)
              && workflows == old(workflows)[key := stored]
    {
      var key := (snapshot.tenant, snapshot.workflowId);
      if key !in workflows {
        workflows := workflows[key := snapshot];
      }
      stored := workflows[key];
    }

    method Transition(workflowId: Uuid, tenant: string, epoch: nat, expected: State, target: State,
                      operator: Option<string>, reviewer: Option<string>)
      returns (r: Result<Snapshot>)
      modifies this
      ensures r == old(SwapRow(Get(workflowId, tenant), epoch, expected, target, operator, reviewer))
      ensures workflows == if r.Ok? then old(workflows)[(tenant, workflowId) := r.value] else old(workflows)
    {
      var current := Get(workflowId, tenant);
      if current.None? {
        return Err("workflow not found");
      }
      var row := current.value;
      if !row.active {
        return Err("workflow is inactive");
      }
      if row.epoch != epoch || row.state != expected {
        return Err("stale workflow state or epoch");
      }
      var updated := row.(state := target, epoch := row.epoch + 1);
      if operator.Some? && operator.value != "" {
        updated := updated.(operatorSubject := operator);
      }
      if reviewer.Some? && reviewer.value != "" {
        updated := updated.(reviewerSubject := reviewer);
      }
      workflows := workflows[(tenant, workflowId) := updated];
      r := Ok(updated);
    }

    method Invalidate(workflowId: Uuid, tenant: string, epoch: nat) returns (r: Result<Snapshot>)
      modifies this
      ensures r == old(InvalidateRow(Get(workflowId, tenant), epoch))
      ensures workflows == if r.Ok? then old(workflows)[(tenant, workflowId) := r.value] else old(workflows)
    {
      var current := Get(workflowId, tenant);
      if current.None? {
        return Err("workflow not found");
      }
      var row := current.value;
      if !row.active || row.epoch != epoch {
        return Err("stale workflow state or epoch");
      }
      r := Ok(row.(active := false, epoch := row.epoch + 1));
      workflows := workflows[(tenant, workflowId) := r.value];
    }
  }
}
