/** The workflow coordinator (workflow.py): authority check, compare-and-swap, ledger append. */
module Coordinator {
  import opened Common
  import opened Canonical
  import opened Workflow
  import opened Ledger

  /** Workflow row and ledger chain agree: one event per epoch, and the last event names the
      row's state, epoch and capabilities. */
  predicate InLockstep(row: Snapshot, events: seq<Event>) {
    && events != []
    && |events| == row.epoch
    && var last := events[|events| - 1];
       && last.epochAfter == row.epoch
       && last.stateAfter == StateName(row.state)
       && last.capabilitiesAfter == row.AvailableTools()
       && last.workflowId == row.workflowId && last.tenant == row.tenant
  }

  /** The subject a call records in one of the row's two subject columns. */
  function SubjectFor(role: Role, wanted: Role, subject: string): Option<string> {
    if role == wanted then Some(subject) else None
  }

  /** What an accepted transition does to a row. */
  function MovedBy(row: Snapshot, target: State, role: Role, subject: string): Snapshot {
    Moved(row, target, SubjectFor(role, Operator, subject), SubjectFor(role, Reviewer, subject))
  }

  class WorkflowCoordinator {
    const repository: WorkflowRepository
    const ledger: LedgerRepository

    constructor (repository: WorkflowRepository, ledger: LedgerRepository)
      ensures this.repository == repository && this.ledger == ledger
    {
      this.repository, this.ledger := repository, ledger;
    }

    /** Row and chain of one bound workflow agree. */
    predicate Lockstep(workflowId: Uuid, tenant: string)
      reads repository, ledger
    {
      var key := (tenant, workflowId);
      key in repository.workflows && key in ledger.runs ==>
        InLockstep(repository.workflows[key], ledger.Events(ledger.runs[key].runId, tenant))
    }

    method EnsureForAnalysis(tenant: string, workflowId: Uuid, actionHash: Option<Digest>, mutating: bool)
      returns (stored: Snapshot)
      modifies repository
      ensures var key := (tenant, workflowId);
              && stored == (if key in old(repository.workflows) then old(repository.workflows[key])
                            else Snapshot(workflowId, tenant,
                                          if mutating then AwaitingOperatorApproval else Investigating,
                                          1, true, actionHash, None, None))
              && repository.workflows == old(repository.workflows)[key := stored]
    {
      var state := if mutating then AwaitingOperatorApproval else Investigating;
      stored := repository.Ensure(Snapshot(workflowId, tenant, state, 1, true, actionHash, None, None));
    }

    /** A transition is refused, changing nothing, exactly when its authority check fails;
        otherwise it moves the row one epoch and appends the one event that records the move. */
    method Transition(workflowId: Uuid, tenant: string, epoch: nat, expected: State, target: State,
                      entry: Entry, allowLegacyUi: bool, eventId: Uuid, now: int)
      returns (r: Result<Snapshot>)
      requires forall key :: key in repository.workflows ==>
                 key == (repository.workflows[key].tenant, repository.workflows[key].workflowId)
      modifies repository, ledger
      ensures r.Ok? <==> old(ValidateTransition(repository.Get(workflowId, tenant), epoch, expected,
                                                entry.channel, entry.actorSubject, entry.actorRole,
                                                allowLegacyUi)).Ok?
      ensures r.Err? ==> repository.workflows == old(repository.workflows) && ledger.chains == old(ledger.chains)
      ensures r.Ok? ==>
                var key := (tenant, workflowId);
                var before := old(repository.workflows)[key];
                && r.value == MovedBy(before, target, entry.actorRole, entry.actorSubject)
                && repository.workflows == old(repository.workflows)[key := r.value]
                && (key in ledger.runs ==>
                      var run := ledger.runs[key];
                      ledger.Events(run.runId, tenant) == old(ledger.Events(run.runId, tenant))
                      + [NextEvent(ledger.p, run, old(ledger.Events(run.runId, tenant)), before, r.value,
                                   entry, eventId, now)])
      ensures ledger.runs == old(ledger.runs)
      ensures old(Lockstep(workflowId, tenant)) ==> Lockstep(workflowId, tenant)
    {
      var current := repository.Get(workflowId, tenant);
      var validated := ValidateTransition(current, epoch, expected, entry.channel, entry.actorSubject,
                                          entry.actorRole, allowLegacyUi);
      if validated.Err? {
        return validated;
      }
      var before := validated.value;
      r := repository.Transition(workflowId, tenant, epoch, expected, target,
                                 SubjectFor(entry.actorRole, Operator, entry.actorSubject),
                                 SubjectFor(entry.actorRole, Reviewer, entry.actorSubject));
      var appended := ledger.AppendTransition(before, r.value, entry, eventId, now, None);
    }

    /** Reset: only the operator's UI may end a workflow, and only at its exact epoch. */
    method Invalidate(workflowId: Uuid, tenant: string, epoch: nat, channel: Channel, role: Role,
                      subject: string, eventId: Uuid, now: int)
      returns (r: Result<Snapshot>)
      requires forall key :: key in repository.workflows ==>
                 key == (repository.workflows[key].tenant, repository.workflows[key].workflowId)
      modifies repository, ledger
      ensures r.Ok? <==> channel == Ui && role == Operator
                         && old(InvalidateRow(repository.Get(workflowId, tenant), epoch)).Ok?
      ensures r.Err? ==> repository.workflows == old(repository.workflows) && ledger.chains == old(ledger.chains)
      ensures r.Ok? ==>
                var key := (tenant, workflowId);
                var before := old(repository.workflows)[key];
                && r.value == Invalidated(before)
                && repository.workflows == old(repository.workflows)[key := r.value]
                && (key in ledger.runs ==>
                      var run := ledger.runs[key];
                      ledger.Events(run.runId, tenant) == old(ledger.Events(run.runId, tenant))
                      + [NextEvent(ledger.p, run, old(ledger.Events(run.runId, tenant)), before, r.value,
                                   Entry(subject, role, channel, "WORKFLOW_RESET_ACCEPTED"), eventId, now)])
      ensures ledger.runs == old(ledger.runs)
      ensures old(Lockstep(workflowId, tenant)) ==> Lockstep(workflowId, tenant)
    {
      if channel != Ui || role != Operator {
        return Err("reset requires the operator UI channel");
      }
      var current := repository.Get(workflowId, tenant);
      if current.None? {
        return Err("workflow not found");
      }
      r := repository.Invalidate(workflowId, tenant, epoch);
      if r.Ok? {
        var entry := Entry(subject, role, channel, "WORKFLOW_RESET_ACCEPTED");
        var appended := ledger.AppendTransition(current.value, r.value, entry, eventId, now, None);
      }
    }

    /** The in-memory half of allocate_run: bind the run, create its row, append its genesis event.
        For a workflow and a run not seen before, row and chain start in lockstep. */
    method AllocateRun(tenant: string, workflowId: Uuid, run: RunBinding, actionHash: Option<Digest>, eventId: Uuid, now: int)
      returns (stored: Snapshot)
      requires (tenant, workflowId) !in repository.workflows && ledger.Events(run.runId, tenant) == []
      modifies repository, ledger
      ensures stored == Snapshot(workflowId, tenant, Investigating, 1, true, actionHash, None, None)
      ensures repository.workflows == old(repository.workflows)[(tenant, workflowId) := stored]
      ensures ledger.runs == old(ledger.runs)[(tenant, workflowId) := run]
      ensures ledger.Events(run.runId, tenant)
              == [NextEvent(ledger.p, run, [], BeforeGenesis(stored), stored, GENESIS_ENTRY, eventId, now)]
      ensures Lockstep(workflowId, tenant)
    {
      ledger.BindRun(tenant, workflowId, run);
      stored := EnsureForAnalysis(tenant, workflowId, actionHash, false);
      var appended := ledger.AppendGenesis(stored, eventId, now, None);
    }
  }
}
