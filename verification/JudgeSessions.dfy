/** Judge runs, sessions and reviewer handoffs (sessions.py): capacity, expiry, reset and single use. */
module JudgeSessions {
  import opened Common

  datatype RunStatus = Active | Expired | Reset

  datatype RunRow = RunRow(tenant: string, generation: nat, status: RunStatus, expiresAt: int,
                           finalizedAt: Option<int>, resetAt: Option<int>)

  datatype Session = Session(runId: Uuid, subject: string, revokedAt: Option<int>)

  datatype Handoff = Handoff(runId: Uuid, tenant: string, expiresAt: int, consumedAt: Option<int>, revokedAt: Option<int>)

  datatype Repo = Repo(sessions: map<string, Session>, runs: map<Uuid, RunRow>, handoffs: map<string, Handoff>)

  // ----- the operations on values -----

  /** get_run: an active run past its time is marked expired when it is looked at. */
  function Looked(r: RunRow, now: int): RunRow {
    if r.status == Active && r.expiresAt <= now then r.(status := Expired, finalizedAt := Some(now)) else r
  }

  function LookAt(repo: Repo, id: Uuid, now: int): Repo {
    if id in repo.runs then repo.(runs := repo.runs[id := Looked(repo.runs[id], now)]) else repo
  }

  /** active_run_count looks at every run. */
  function LookAtAll(repo: Repo, now: int): Repo {
    repo.(runs := map id | id in repo.runs :: Looked(repo.runs[id], now))
  }

  function ActiveAmong(runs: map<Uuid, RunRow>, ids: set<Uuid>): set<Uuid> {
    set id | id in ids && id in runs && runs[id].status == Active
  }

  function ActiveIds(repo: Repo): set<Uuid> {
    ActiveAmong(repo.runs, repo.runs.Keys)
  }

  function SaveRun(repo: Repo, id: Uuid, run: RunRow, limit: int, now: int): (Repo, Option<string>) {
    var looked := LookAtAll(repo, now);
    if |ActiveIds(looked)| >= limit then (looked, Some("judge scenario capacity reached"))
    else if exists other :: other in looked.runs && looked.runs[other].tenant == run.tenant
    then (looked, Some("judge run tenant already exists"))
    else (looked.(runs := looked.runs[id := run]), None)
  }

  function ResetRun(repo: Repo, id: Uuid, now: int): (Repo, bool) {
    if id !in repo.runs || repo.runs[id].status != Active then (repo, false)
    else
      (repo.(runs := repo.runs[id := repo.runs[id].(status := Reset, resetAt := Some(now), finalizedAt := Some(now))],
             sessions := map h | h in repo.sessions ::
               if repo.sessions[h].runId == id && repo.sessions[h].revokedAt.None?
               then repo.sessions[h].(revokedAt := Some(now)) else repo.sessions[h]),
       true)
  }

  function SaveHandoff(repo: Repo, code: string, h: Handoff): (Repo, Option<string>) {
    if code in repo.handoffs then (repo, Some("review handoff already exists"))
    else (repo.(handoffs := repo.handoffs[code := h]), None)
  }

  predicate Open(repo: Repo, code: string, now: int) {
    && code in repo.handoffs && repo.handoffs[code].consumedAt.None? && repo.handoffs[code].revokedAt.None?
    && repo.handoffs[code].expiresAt > now
  }

  function ConsumeHandoff(repo: Repo, code: string, now: int): (Repo, Option<Handoff>) {
    if !Open(repo, code, now) then (repo, None)
    else
      var h := repo.handoffs[code];
      var looked := LookAt(repo, h.runId, now);
      if h.runId !in looked.runs || looked.runs[h.runId].tenant != h.tenant || looked.runs[h.runId].status != Active
      then (looked, None)
      else
        var consumed := h.(consumedAt := Some(now));
        (looked.(handoffs := looked.handoffs[code := consumed]), Some(consumed))
  }

  /** The runs outside `rest` have been looked at. */
  ghost predicate PartlyLooked(original: map<Uuid, RunRow>, runs: map<Uuid, RunRow>, rest: set<Uuid>, now: int) {
    runs.Keys == original.Keys && forall id :: id in runs ==> runs[id] == if id in rest then original[id] else Looked(original[id], now)
  }

  lemma LookAtOne(original: map<Uuid, RunRow>, before: map<Uuid, RunRow>, after: map<Uuid, RunRow>, rest: set<Uuid>, id: Uuid, now: int)
    requires PartlyLooked(original, before, rest, now) && id in rest && id in before
    requires after == before[id := Looked(before[id], now)]
    ensures PartlyLooked(original, after, rest - {id}, now)
  {
  }

  lemma LookOne(original: map<Uuid, RunRow>, before: map<Uuid, RunRow>, after: map<Uuid, RunRow>, rest: set<Uuid>, id: Uuid, now: int)
    requires PartlyLooked(original, before, rest, now) && id in rest && id in before
    requires after == before[id := Looked(before[id], now)]
    ensures PartlyLooked(original, after, rest - {id}, now)
    ensures |ActiveAmong(after, after.Keys - (rest - {id}))|
            == |ActiveAmong(before, before.Keys - rest)| + (if after[id].status == Active then 1 else 0)
  {
    LookAtOne(original, before, after, rest, id, now);
    CountOneMore(before, after, before.Keys - rest, id);
    assert after.Keys - (rest - {id}) == (before.Keys - rest) + {id};
  }

  lemma CountOneMore(before: map<Uuid, RunRow>, after: map<Uuid, RunRow>, seen: set<Uuid>, id: Uuid)
    requires seen <= before.Keys && id in before && id !in seen && id in after && after == before[id := after[id]]
    ensures |ActiveAmong(after, seen + {id})| == |ActiveAmong(before, seen)| + (if after[id].status == Active then 1 else 0)
  {
    assert ActiveAmong(after, seen + {id}) == ActiveAmong(before, seen) + (if after[id].status == Active then {id} else {});
  }

  lemma AllLooked(original: map<Uuid, RunRow>, runs: map<Uuid, RunRow>, now: int)
    requires PartlyLooked(original, runs, {}, now)
    ensures runs == map id | id in original :: Looked(original[id], now)
    ensures runs.Keys - {} == runs.Keys
  {
  }

  // ----- the repository -----

  class SessionRepository {
    var sessions: map<string, Session>
    var runs: map<Uuid, RunRow>
    var handoffs: map<string, Handoff>

    function View(): Repo
      reads this
    {
      Repo(sessions, runs, handoffs)
    }

    constructor ()
      ensures View() == Repo(map[], map[], map[])
    {
      sessions, runs, handoffs := map[], map[], map[];
    }

    method GetRun(id: Uuid, now: int) returns (run: Option<RunRow>)
      modifies this
      ensures View() == LookAt(old(View()), id, now)
      ensures run == if id in runs then Some(runs[id]) else None
    {
      if id !in runs {
        return None;
      }
      if runs[id].status == Active && runs[id].expiresAt <= now {
        runs := runs[id := runs[id].(status := Expired, finalizedAt := Some(now))];
      }
      run := Some(runs[id]);
    }

    method ActiveRunCount(now: int) returns (count: nat)
      modifies this
      ensures View() == LookAtAll(old(View()), now)
      ensures count == |ActiveIds(View())|
    {
      var rest := runs.Keys;
      count := 0;
      while rest != {}
        invariant rest <= runs.Keys && PartlyLooked(old(runs), runs, rest, now)
        invariant sessions == old(sessions) && handoffs == old(handoffs)
        invariant count == |ActiveAmong(runs, runs.Keys - rest)|
        decreases |rest|
      {
        var id :| id in rest;
        ghost var before := runs;
        var run := GetRun(id, now);
        LookOne(old(runs), before, runs, rest, id, now);
        rest := rest - {id};
        if run.value.status == Active {
          count := count + 1;
        }
      }
      AllLooked(old(runs), runs, now);
    }

    method AddRun(id: Uuid, run: RunRow, limit: int, now: int) returns (error: Option<string>)
      modifies this
      ensures (View(), error) == SaveRun(old(View()), id, run, limit, now)
    {
      var count := ActiveRunCount(now);
      if count >= limit {
        return Some("judge scenario capacity reached");
      }
      if exists other :: other in runs && runs[other].tenant == run.tenant {
        return Some("judge run tenant already exists");
      }
      runs := runs[id := run];
      error := None;
    }

    method ResetActiveRun(id: Uuid, now: int) returns (done: bool)
      modifies this
      ensures (View(), done) == ResetRun(old(View()), id, now)
    {
      if id !in runs || runs[id].status != Active {
        return false;
      }
      runs := runs[id := runs[id].(status := Reset, resetAt := Some(now), finalizedAt := Some(now))];
      var rest := sessions.Keys;
      while rest != {}
        invariant rest <= sessions.Keys == old(sessions).Keys
        invariant runs == ResetRun(old(View()), id, now).0.runs && handoffs == old(handoffs)
        invariant forall h :: h in rest ==> sessions[h] == old(sessions)[h]
        invariant forall h :: h in sessions && h !in rest ==> sessions[h] == ResetRun(old(View()), id, now).0.sessions[h]
        decreases |rest|
      {
        var h :| h in rest;
        rest := rest - {h};
        if sessions[h].runId == id && sessions[h].revokedAt.None? {
          sessions := sessions[h := sessions[h].(revokedAt := Some(now))];
        }
      }
      assert sessions == ResetRun(old(View()), id, now).0.sessions;
      done := true;
    }

    method UseHandoff(code: string, now: int) returns (consumed: Option<Handoff>)
      modifies this
      ensures (View(), consumed) == ConsumeHandoff(old(View()), code, now)
    {
      if code !in handoffs || handoffs[code].consumedAt.Some? || handoffs[code].revokedAt.Some?
         || handoffs[code].expiresAt <= now {
        return None;
      }
      var h := handoffs[code];
      var run := GetRun(h.runId, now);
      if run.None? || run.value.tenant != h.tenant || run.value.status != Active {
        return None;
      }
      handoffs := handoffs[code := h.(consumedAt := Some(now))];
      consumed := Some(handoffs[code]);
    }
  }

  // ----- what each operation means -----

  /** The runs that are live at a time, whether or not anyone has looked at the others. */
  function LiveAt(repo: Repo, now: int): set<Uuid> {
    set id | id in repo.runs && repo.runs[id].status == Active && now < repo.runs[id].expiresAt
  }

  /** An overdue run has been marked as expired when somebody looked; any other is as it was. */
  predicate SeenAt(r: RunRow, r': RunRow, now: int) {
    if r.status == Active && now >= r.expiresAt
    then r' == r.(status := Expired, finalizedAt := Some(now))
    else r' == r
  }

  /** A run is added exactly when fewer runs than the limit are live and none has its tenant; everyone else
      has been looked at either way. */
  lemma AddedExactly(repo: Repo, id: Uuid, run: RunRow, limit: int, now: int)
    ensures var (repo', error) := SaveRun(repo, id, run, limit, now);
            && (error.None? <==> |LiveAt(repo, now)| < limit && forall other :: other in repo.runs ==> repo.runs[other].tenant != run.tenant)
            && repo'.sessions == repo.sessions && repo'.handoffs == repo.handoffs
            && repo'.runs.Keys == (if error.None? then repo.runs.Keys + {id} else repo.runs.Keys)
            && (error.None? ==> repo'.runs[id] == run)
            && (forall other :: other in repo.runs && (error.Some? || other != id) ==> SeenAt(repo.runs[other], repo'.runs[other], now))
  {
    var looked := LookAtAll(repo, now);
    assert ActiveIds(looked) == LiveAt(repo, now);
    assert forall other :: other in repo.runs ==> looked.runs[other].tenant == repo.runs[other].tenant;
  }

  /** A handoff is used exactly when it is unused, not revoked and in time, and its run is a live one of
      its tenant; then it is marked as used, and nothing else changes but that its run has been seen. */
  lemma ConsumedExactly(repo: Repo, code: string, now: int)
    ensures var (repo', used) := ConsumeHandoff(repo, code, now);
            && (used.Some? <==>
                  && code in repo.handoffs
                  && var h := repo.handoffs[code];
                  && h.consumedAt == None && h.revokedAt == None && now < h.expiresAt
                  && h.runId in LiveAt(repo, now) && repo.runs[h.runId].tenant == h.tenant)
            && repo'.sessions == repo.sessions && repo'.runs.Keys == repo.runs.Keys
            && (forall id :: id in repo.runs ==> repo'.runs[id] == repo.runs[id] || SeenAt(repo.runs[id], repo'.runs[id], now))
            && repo'.handoffs == (if used.Some? then repo.handoffs[code := repo.handoffs[code].(consumedAt := Some(now))] else repo.handoffs)
            && (used.Some? ==> used.value == repo'.handoffs[code])
  {
  }

  /** A reset ends an active run and revokes exactly its sessions that were not revoked before, all at
      that time. */
  lemma ResetExactly(repo: Repo, id: Uuid, now: int)
    ensures var (repo', done) := ResetRun(repo, id, now);
            && (done <==> id in repo.runs && repo.runs[id].status == Active)
            && (!done ==> repo' == repo)
            && (done ==>
                  && repo'.handoffs == repo.handoffs && repo'.sessions.Keys == repo.sessions.Keys
                  && repo'.runs == repo.runs[id := repo.runs[id].(status := Reset, resetAt := Some(now), finalizedAt := Some(now))]
                  && forall h :: h in repo.sessions ==>
                       repo'.sessions[h] == repo.sessions[h].(revokedAt :=
                         if repo.sessions[h].runId == id && repo.sessions[h].revokedAt == None then Some(now)
                         else repo.sessions[h].revokedAt))
  {
  }

  // ----- runs of operations -----

  datatype Step =
    | NewRun(id: Uuid, run: RunRow, now: int)
    | NewSession(hash: string, session: Session)
    | RevokeSession(hash: string, now: int)
    | NewHandoff(code: string, handoff: Handoff)
    | Look(id: Uuid, now: int)
    | ResetStep(id: Uuid, now: int)
    | Consume(code: string, now: int)

  function Do(repo: Repo, limit: int, step: Step): Repo {
    match step
    case NewRun(id, run, now) => SaveRun(repo, id, run, limit, now).0
    case NewSession(hash, session) => repo.(sessions := repo.sessions[hash := session])
    case RevokeSession(hash, now) =>
      if hash in repo.sessions then repo.(sessions := repo.sessions[hash := repo.sessions[hash].(revokedAt := Some(now))]) else repo
    case NewHandoff(code, h) => SaveHandoff(repo, code, h).0
    case Look(id, now) => LookAt(repo, id, now)
    case ResetStep(id, now) => ResetRun(repo, id, now).0
    case Consume(code, now) => ConsumeHandoff(repo, code, now).0
  }

  /** Run ids and session tokens are drawn at random: a new one is not in use. */
  predicate Unused(repo: Repo, step: Step) {
    && (step.NewRun? ==> step.id !in repo.runs && step.run.status == Active)
    && (step.NewSession? ==> step.hash !in repo.sessions)
  }

  function DoAll(repo: Repo, limit: int, steps: seq<Step>): Repo
    decreases |steps|
  {
    if steps == [] then repo else DoAll(Do(repo, limit, steps[0]), limit, steps[1..])
  }

  predicate AllUnused(repo: Repo, limit: int, steps: seq<Step>)
    decreases |steps|
  {
    steps == [] || (Unused(repo, steps[0]) && AllUnused(Do(repo, limit, steps[0]), limit, steps[1..]))
  }

  /** What no later operation undoes: ended runs, used handoffs and revoked sessions. */
  ghost predicate Settled(repo: Repo, repo': Repo) {
    && (forall id :: id in repo.runs ==> id in repo'.runs && repo'.runs[id].tenant == repo.runs[id].tenant)
    && (forall id :: id in repo.runs && repo.runs[id].status != Active ==> repo'.runs[id] == repo.runs[id])
    && (forall code :: code in repo.handoffs ==> code in repo'.handoffs && repo'.handoffs[code].runId == repo.handoffs[code].runId)
    && (forall code :: code in repo.handoffs && repo.handoffs[code].consumedAt.Some? ==> repo'.handoffs[code] == repo.handoffs[code])
    && (forall h :: h in repo.sessions ==> h in repo'.sessions && repo'.sessions[h].runId == repo.sessions[h].runId)
    && (forall h :: h in repo.sessions && repo.sessions[h].revokedAt.Some? ==> repo'.sessions[h].revokedAt.Some?)
  }

  lemma LookingSettles(repo: Repo, id: Uuid, now: int)
    ensures Settled(repo, LookAt(repo, id, now)) && Settled(repo, LookAtAll(repo, now))
  {
  }

  lemma ResetSettles(repo: Repo, id: Uuid, now: int)
    ensures Settled(repo, ResetRun(repo, id, now).0)
  {
  }

  lemma ConsumeSettles(repo: Repo, code: string, now: int)
    ensures Settled(repo, ConsumeHandoff(repo, code, now).0)
  {
    if Open(repo, code, now) {
      LookingSettles(repo, repo.handoffs[code].runId, now);
    }
  }

  lemma NewRunSettles(repo: Repo, limit: int, id: Uuid, run: RunRow, now: int)
    requires id !in repo.runs
    ensures Settled(repo, SaveRun(repo, id, run, limit, now).0)
  {
    LookingSettles(repo, id, now);
  }

  lemma StepSettles(repo: Repo, limit: int, step: Step)
    requires Unused(repo, step)
    ensures Settled(repo, Do(repo, limit, step))
  {
    match step
    case NewRun(id, run, now) => NewRunSettles(repo, limit, id, run, now);
    case NewSession(_, _) =>
    case RevokeSession(_, _) =>
    case NewHandoff(_, _) =>
    case Look(id, now) => LookingSettles(repo, id, now);
    case ResetStep(id, now) => ResetSettles(repo, id, now);
    case Consume(code, now) => ConsumeSettles(repo, code, now);
  }

  lemma {:induction false} RunSettles(repo: Repo, limit: int, steps: seq<Step>)
    requires AllUnused(repo, limit, steps)
    ensures Settled(repo, DoAll(repo, limit, steps))
    decreases |steps|
  {
    if steps != [] {
      StepSettles(repo, limit, steps[0]);
      RunSettles(Do(repo, limit, steps[0]), limit, steps[1..]);
    }
  }

  /** A handoff is used at most once, whatever happens afterwards, and only while its run is active
      and unexpired. */
  lemma HandoffIsSingleUse(repo: Repo, limit: int, code: string, now: int, steps: seq<Step>, later: int)
    requires ConsumeHandoff(repo, code, now).1.Some?
    requires AllUnused(ConsumeHandoff(repo, code, now).0, limit, steps)
    ensures ConsumeHandoff(DoAll(ConsumeHandoff(repo, code, now).0, limit, steps), code, later).1.None?
    ensures var run := repo.handoffs[code].runId;
            run in repo.runs && repo.runs[run].status == Active && repo.runs[run].expiresAt > now
            && repo.runs[run].tenant == repo.handoffs[code].tenant
  {
    RunSettles(ConsumeHandoff(repo, code, now).0, limit, steps);
  }

  /** After a reset, every session the run had stays revoked and none of its handoffs can be used,
      for good. */
  lemma ResetEndsTheRun(repo: Repo, limit: int, id: Uuid, now: int, steps: seq<Step>, hash: string, code: string, later: int)
    requires ResetRun(repo, id, now).1
    requires AllUnused(ResetRun(repo, id, now).0, limit, steps)
    ensures var after := DoAll(ResetRun(repo, id, now).0, limit, steps);
            && (hash in repo.sessions && repo.sessions[hash].runId == id
                ==> hash in after.sessions && after.sessions[hash].revokedAt.Some?)
            && (code in after.handoffs && after.handoffs[code].runId == id ==> ConsumeHandoff(after, code, later).1.None?)
            && !ResetRun(after, id, later).1
  {
    RunSettles(ResetRun(repo, id, now).0, limit, steps);
  }

  lemma LookingEndsRuns(repo: Repo, id: Uuid, now: int)
    ensures ActiveIds(LookAt(repo, id, now)) <= ActiveIds(repo)
    ensures ActiveIds(LookAtAll(repo, now)) <= ActiveIds(repo)
  {
  }

  lemma OneMoreRun(repo: Repo, id: Uuid, run: RunRow)
    requires id !in repo.runs
    ensures |ActiveIds(repo.(runs := repo.runs[id := run]))| <= |ActiveIds(repo)| + 1
  {
    var more := ActiveIds(repo.(runs := repo.runs[id := run]));
    SubsetIsSmaller(more, ActiveIds(repo) + {id});
  }

  lemma NewRunKeepsCapacity(repo: Repo, limit: nat, id: Uuid, run: RunRow, now: int)
    requires |ActiveIds(repo)| <= limit && id !in repo.runs && run.status == Active
    ensures |ActiveIds(SaveRun(repo, id, run, limit, now).0)| <= limit
  {
    var looked := LookAtAll(repo, now);
    LookingEndsRuns(repo, id, now);
    SubsetIsSmaller(ActiveIds(looked), ActiveIds(repo));
    if SaveRun(repo, id, run, limit, now).1.None? {
      OneMoreRun(looked, id, run);
    }
  }

  lemma StepKeepsCapacity(repo: Repo, limit: nat, step: Step)
    requires |ActiveIds(repo)| <= limit && Unused(repo, step)
    ensures |ActiveIds(Do(repo, limit, step))| <= limit
  {
    if step.NewRun? {
      NewRunKeepsCapacity(repo, limit, step.id, step.run, step.now);
    } else {
      OtherStepsOnlyEndRuns(repo, limit, step);
      SubsetIsSmaller(ActiveIds(Do(repo, limit, step)), ActiveIds(repo));
    }
  }

  lemma OtherStepsOnlyEndRuns(repo: Repo, limit: int, step: Step)
    requires !step.NewRun?
    ensures ActiveIds(Do(repo, limit, step)) <= ActiveIds(repo)
  {
    match step
    case NewSession(_, _) =>
    case RevokeSession(_, _) =>
    case NewHandoff(_, _) =>
    case Look(id, now) => LookingEndsRuns(repo, id, now);
    case ResetStep(id, now) => assert ActiveIds(ResetRun(repo, id, now).0) <= ActiveIds(repo);
    case Consume(code, now) =>
      if Open(repo, code, now) {
        LookingEndsRuns(repo, repo.handoffs[code].runId, now);
      }
  }

  lemma SubsetIsSmaller(a: set<Uuid>, b: set<Uuid>)
    requires a <= b
    ensures |a| <= |b|
  {
    assert b == a + (b - a);
  }

  /** There are never more active runs than the limit. */
  lemma {:induction false} CapacityHolds(repo: Repo, limit: nat, steps: seq<Step>)
    requires |ActiveIds(repo)| <= limit && AllUnused(repo, limit, steps)
    ensures |ActiveIds(DoAll(repo, limit, steps))| <= limit
    decreases |steps|
  {
    if steps != [] {
      StepKeepsCapacity(repo, limit, steps[0]);
      CapacityHolds(Do(repo, limit, steps[0]), limit, steps[1..]);
    }
  }

  /** A revoked session stays revoked, whatever happens afterwards. */
  lemma RevokedForGood(repo: Repo, limit: int, hash: string, now: int, steps: seq<Step>)
    requires hash in repo.sessions && AllUnused(Do(repo, limit, RevokeSession(hash, now)), limit, steps)
    ensures var after := DoAll(Do(repo, limit, RevokeSession(hash, now)), limit, steps);
            hash in after.sessions && after.sessions[hash].revokedAt.Some?
  {
    RunSettles(Do(repo, limit, RevokeSession(hash, now)), limit, steps);
  }

  /** No two runs share a tenant, and a run has its final dates exactly when it has ended that way. */
  ghost predicate RunsOk(repo: Repo) {
    && (forall a, b :: a in repo.runs && b in repo.runs && a != b ==> repo.runs[a].tenant != repo.runs[b].tenant)
    && (forall id :: id in repo.runs ==> DatedOk(repo.runs[id]))
  }

  predicate DatedOk(r: RunRow) {
    && (r.finalizedAt.Some? <==> r.status != Active)
    && (r.resetAt.Some? <==> r.status == Reset)
    && (r.status == Reset ==> r.resetAt == r.finalizedAt)
    && (r.status == Expired ==> r.finalizedAt.value >= r.expiresAt)
  }

  /** Looking at runs keeps this. */
  lemma SeenKeepsRunsOk(repo: Repo, repo': Repo, now: int)
    requires RunsOk(repo) && repo'.runs.Keys == repo.runs.Keys
    requires forall id :: id in repo.runs ==> repo'.runs[id] == repo.runs[id] || SeenAt(repo.runs[id], repo'.runs[id], now)
    ensures RunsOk(repo')
  {
    forall id | id in repo'.runs
      ensures DatedOk(repo'.runs[id]) && repo'.runs[id].tenant == repo.runs[id].tenant
    {
      assert DatedOk(repo.runs[id]);
    }
  }

  lemma AnotherRunIsOk(repo: Repo, id: Uuid, run: RunRow)
    requires RunsOk(repo) && id !in repo.runs && DatedOk(run)
    requires forall other :: other in repo.runs ==> repo.runs[other].tenant != run.tenant
    ensures RunsOk(repo.(runs := repo.runs[id := run]))
  {
  }

  lemma LookedIsOk(repo: Repo, now: int)
    requires RunsOk(repo)
    ensures RunsOk(LookAtAll(repo, now))
  {
    SeenKeepsRunsOk(repo, LookAtAll(repo, now), now);
  }

  lemma NewRunKeepsRunsOk(repo: Repo, limit: int, id: Uuid, run: RunRow, now: int)
    requires RunsOk(repo) && id !in repo.runs && DatedOk(run)
    ensures RunsOk(SaveRun(repo, id, run, limit, now).0)
  {
    var looked := LookAtAll(repo, now);
    LookedIsOk(repo, now);
    if SaveRun(repo, id, run, limit, now).1.None? {
      AnotherRunIsOk(looked, id, run);
    }
  }

  lemma ResetKeepsRunsOk(repo: Repo, id: Uuid, now: int)
    requires RunsOk(repo)
    ensures RunsOk(ResetRun(repo, id, now).0)
  {
    ResetExactly(repo, id, now);
  }

  lemma StepKeepsRunsOk(repo: Repo, limit: int, step: Step)
    requires RunsOk(repo) && Unused(repo, step) && (step.NewRun? ==> DatedOk(step.run))
    ensures RunsOk(Do(repo, limit, step))
  {
    match step
    case NewRun(id, run, now) => NewRunKeepsRunsOk(repo, limit, id, run, now);
    case NewSession(_, _) =>
    case RevokeSession(_, _) =>
    case NewHandoff(_, _) =>
    case Look(id, now) => SeenKeepsRunsOk(repo, LookAt(repo, id, now), now);
    case ResetStep(id, now) => ResetKeepsRunsOk(repo, id, now);
    case Consume(code, now) =>
      ConsumedExactly(repo, code, now);
      SeenKeepsRunsOk(repo, ConsumeHandoff(repo, code, now).0, now);
  }

  ghost predicate NewRunsDated(steps: seq<Step>) {
    forall k :: 0 <= k < |steps| && steps[k].NewRun? ==> DatedOk(steps[k].run)
  }

  /** In every history no two runs ever share a tenant, and every ended run says when and how it ended; an
      expired one not before its time. */
  lemma {:induction false} RunsStayDistinct(repo: Repo, limit: int, steps: seq<Step>)
    requires RunsOk(repo) && AllUnused(repo, limit, steps) && NewRunsDated(steps)
    ensures RunsOk(DoAll(repo, limit, steps))
    decreases |steps|
  {
    if steps != [] {
      StepKeepsRunsOk(repo, limit, steps[0]);
      RunsStayDistinct(Do(repo, limit, steps[0]), limit, steps[1..]);
    }
  }
}
