# RecallOps authority protocol: a verified model

RecallOps lets an agent, an operator, the system and a reviewer hand one workflow between them. Every
hand-over is a compare-and-swap on a workflow row and one event of a hash-chained ledger, and the ledger
must later convince an offline verifier. This project models that protocol in Dafny, together with what
stands around it: receipt finalization by leasing workers, the write-once bundle archive, the browser's
tool registration, memory governance and retrieval, the trusted-key registry and its text formats, the
migrators, and the judge's sessions.

`dafny verify dfyconfig.toml` checks everything.

| file | part of the system |
|---|---|
| `Common.dfy`, `Canonical.dfy` | options and results; JSON values, digests, the two uninterpreted primitives |
| `Workflow.dfy`, `Ledger.dfy`, `Coordinator.dfy` | workflow rows and their compare-and-swap, the chained ledger, the coordinator over both |
| `Receipts.dfy` | the two offline checkers, and tamper evidence |
| `JudgeRun.dfy`, `JudgeDatabase.dfy` | every route's transaction body: as a step on a run's rows, and as the sequence of writes with its rollback |
| `JudgeAcceptance.dfy` | when each request is accepted, and all that it then changes, stated without the routes |
| `RunInvariants.dfy`, `JudgeTheorems.dfy`, `JudgeWitness.dfy` | what every reachable run keeps, the theorems about whole runs, and a run that shows they are not vacuous |
| `ReceiptOutbox.dfy`, `AuthorityArchive.dfy`, `ReceiptWorkers.dfy` | the lease protocol, the object store, and any number of workers over both |
| `WebMcp.dfy` | interleaved `reconcile` calls |
| `Governance.dfy`, `Versions.dfy`, `MemoryStore.dfy`, `Retrieval.dfy`, `Analysis.dfy` | the memory lifecycle, written versions, its event log, retrieval, and the recommendation |
| `Base64Url.dfy`, `CompactJws.dfy`, `TrustedKeys.dfy`, `Bundle.dfy`, `BundleContents.dfy` | strict text formats, the key registry and the bundle envelope |
| `Migrate.dfy`, `Sessions.dfy`, `JudgeSessions.dfy` | concurrent migrators, the attempt limiter, judge runs and handoffs |

## How it is built

Code that changes state step by step is a class whose methods do the same writes in the same order; each
method is proved equal to a function on the class's contents, and the theorems are about those functions
over all runs. Pure code is functions and lemmas.

A transaction is one atomic step and an abort restores the rows it found. Time is an integer, floating
point is `real`, a UUID is a natural number (the order of UUIDs is the order of the numbers), and database
rows are datatypes.

SHA-256, Ed25519, JSON parsing, the RFC 8785 printer and the texts of UUIDs and timestamps are parameters.
Each lemma names what it needs of them: that printer and texts are injective, that parsing reads back what
was printed, that a printed value is not longer than its escapes and keys allow, or that no two byte strings
in the finite set actually hashed collide. SHA-256 is never assumed injective, which no function into 64
hexadecimal digits is. What is asked of the printer and the parser is asked of JSON values only, and an object
over any key set is exactly one value (`Canonical.OneSchemaPerKeySet`). JSON numbers are the integers a double
holds exactly.

The clock hypothesis of the run theorems is that it never goes back; the identity hypothesis is that an
operator's session has a non-empty subject.

## Where the code does not do what one would expect

- The receipt loader resolves a reviewed run only while its memory lives and is not revoked
  (`JudgeTheorems.ReviewedRunIsAccepted`). A revocation before finalization leaves a ledger both offline
  checkers accept and a receipt that can never be signed (`JudgeWitness.RevokedBeforeFinalization`,
  `JudgeTheorems.RevokedNeverLoads`). So does a reset before finalization, although the memory lives on
  unrevoked: the target is no longer the ledger's head (`JudgeTheorems.ResetNeverLoads`).
- Leases are checked by worker name, not by attempt number. A superseded worker can change neither row exactly
  when no other worker runs under its name (`ReceiptWorkers.HarmlessOnceSupersededIff`).
- The coordinator compares the reviewer with the last operator only. A run approved by one operator and
  executed by another is reviewed, and the prefix verifier then refuses it (`JudgeWitness.TwoOperatorsAreRefused`).
  Judge sessions fix the operator, and such runs are accepted (`JudgeTheorems.JudgeSessionRunIsAccepted`).
- The frozen JWS header is compared with Python's equality, under which `true` equals `1`: a header that
  spells its version `true` verifies too (`CompactJws.TwoHeaderSpellings`); there is no third spelling
  (`CompactJws.AcceptsOnlyCompactForms`).
- Validation of a bundle checks that the evidence index is well formed, not that it describes the files: any other
  index can stand in its place (`BundleContents.IndexIsNotCompared`). The index of a built bundle is the true one, and
  the receipt binds its digest (`BundleContents.BuiltExactly`).
- A recommended memory can be reported as selected and ambiguous at once: abstention compares positive
  candidates, the explanation compares all (`Analysis.SelectedWithoutReasonsExactly`).
- On the in-memory store, and on the database's lanes as long as they cut nothing off, the pre-review choice
  differs from the true counterfactual exactly when it is empty while the result's cut kept a usable runner-up
  out (`Retrieval.CounterfactualExactly`, `Retrieval.LaneCounterfactualExactly`; `Retrieval.CounterfactualDiffers`
  is such a store). Where a lane cuts, a non-empty choice can differ too: without the reviewed memory a better
  one enters the candidate pool (`Retrieval.CutLanesHideTheCounterfactual`).
- A migrator's list of applied names is what it executed exactly when none of its transactions aborted after
  listing its file, whatever other migrators do (`Migrate.ListedIsExecutedIff`). Otherwise it can name a file
  twice, or one that another migrator executed (`Migrate.ListedWithoutExecuting`).
- Two windows of the attempt limiter can share an interval, but the sharp bound is 2 * limit - 1, not
  2 * limit (`Sessions.SuccessesPerInterval`, `Sessions.BoundIsReached`).

## Model

| member | source | states |
|---|---|---|
| Canonical.OneSchemaPerKeySet | src/recallops/canonical.py:12-14 | JSON objects over different key sets are different values, and over one key set have one representation, so that the printer's injectivity is not contradictory |
| Workflow.ValidateTransition | src/recallops/workflow.py:474-520 | accepted exactly when the caller holds the state's authority, the row is active at that epoch and state, and a reviewer is not the last operator |
| Workflow.WorkflowRepository.Transition | src/recallops/workflow.py:157-186 | the compare-and-swap: the row moves with its epoch raised by one, or nothing changes and the error says why |
| Workflow.WorkflowRepository.Invalidate | src/recallops/workflow.py:188-205 | the row becomes inactive under a raised epoch, or nothing changes |
| Workflow.WorkflowRepository.Ensure | src/recallops/workflow.py:149-151 | the first row stored for a key stays |
| Workflow.AtMostOneWinnerPerEpoch | src/recallops/workflow.py:157-205 | of any callers racing on one epoch, in any order, at most one succeeds |
| Workflow.EpochCountsWinners | src/recallops/workflow.py:157-205 | after any attempts the epoch has grown by exactly the number of winners |
| Workflow.WinsExactly | src/recallops/workflow.py:157-205 | in every race a caller wins exactly when the row it meets is active at the epoch, and for a swap in the state, it names; the row after each win, and no change after a loss |
| Workflow.ToolsExactly | src/recallops/workflow.py:38-64 | an inactive workflow offers no tool, an active one inspection and, in one state each, the three acting tools |
| Workflow.StateNamesDistinct | src/recallops/workflow.py:21-29 | no two states share a wire name |
| Coordinator.WorkflowCoordinator.Transition | src/recallops/workflow.py:391-444 | row and ledger move together or not at all, and lockstep is kept |
| Coordinator.WorkflowCoordinator.Invalidate | src/recallops/workflow.py:522-549 | invalidation and its one reset event, named in full, commit together, and lockstep is kept |
| Coordinator.WorkflowCoordinator.EnsureForAnalysis | src/recallops/workflow.py:364-382 | the stored row, or a new one in the state the action needs |
| Coordinator.WorkflowCoordinator.AllocateRun | src/recallops/api.py:540-552 | binding, row and genesis event of a new run start in lockstep |
| Ledger.PayloadInjective | src/recallops/ledger.py:99-107 | two events with one canonical payload agree in every field but the stored hash |
| Ledger.PreimageInjective | src/recallops/ledger.py:109-121 | one hash input has one previous hash and one payload |
| Ledger.TextsAreGivenOrNamed | src/recallops/ledger.py:172-224 | event type, state before and summary are the given ones, and named after the transition where none or an empty one is given |
| Ledger.LedgerRepository.AppendTransition | src/recallops/ledger.py:246-298 | the next event of the bound run's chain is appended; a fault at either stage leaves the ledger as it was |
| Ledger.LedgerRepository.AppendGenesis | src/recallops/ledger.py:300-320 | the genesis event starts a bound run's chain; unbound workflows are ignored and a fault leaves every chain as it was |
| Receipts.VerifyLedgerPrefix | src/recallops/receipts.py:248-322 | accepts exactly the well-formed chains from genesis with one operator and one different reviewer, and summarizes them |
| Receipts.AcceptedIsHistoryIff | src/recallops/receipts.py:248-322 | a sequence is accepted exactly when it is the history of one run, event by event, in which one operator and one different reviewer acted alone |
| Receipts.ScanChain | src/recallops/receipts.py:257-303 | the loop finds no objection exactly when every event links correctly, and collects the subjects of both roles |
| Receipts.VerifyCausalBindings | src/recallops/receipts.py:93-151 | accepts exactly the sequences whose first event into each of six states carries that state's object and digest |
| Receipts.LedgerFixesDigests | src/recallops/receipts.py:93-151 | one ledger is causally bound to one set of digests and one disposition only, unless the inputs of the bindings collide |
| Receipts.TamperEvidence | src/recallops/receipts.py:248-322 | two accepted prefixes that end in one event hash are the same sequence, length included, unless their hash inputs collide |
| Receipts.SameHeadSameChain | src/recallops/ledger.py:123-131 | the same over any event hash that tells the two chains' events apart |
| Receipts.ChainExtends | src/recallops/ledger.py:246-298 | an event built on the head extends a verified chain to a verified chain |
| Receipts.FindFirstInto | src/recallops/receipts.py:142-151 | the first event into a state, if any |
| JudgeDatabase.RunRows.constructor | src/recallops/api.py:512-552 | a new run's rows: the workflow at epoch one and its genesis event |
| JudgeDatabase.RunRows.Transition | src/recallops/workflow.py:391-444 | check, swap and append inside a transaction, or an error and no change |
| JudgeDatabase.RunRows.StageProposal | src/recallops/api.py:1472-1508 | the proposal route behind its idempotency record: commits its step or changes nothing (for its answer to a repeat see `JudgeTheorems.RepeatedKeyIsAnsweredIff`) |
| JudgeDatabase.RunRows.ApproveAtomically | src/recallops/api.py:1822-1858 | one decision on exactly the proposed action, and the matching move |
| JudgeDatabase.RunRows.ExecuteSandboxAtomically | src/recallops/api.py:1891-1932 | execution only under the one bound, given approval; an identical repeat keeps the first record |
| JudgeDatabase.RunRows.MarkPostcheckUnavailable | src/recallops/api.py:1946-1960 | the system marks the postcheck unavailable |
| JudgeDatabase.RunRows.StartRetryAtomically | src/recallops/api.py:2043-2074 | the operator reopens the postcheck of a recorded execution |
| JudgeDatabase.RunRows.RecordObservationAtomically | src/recallops/api.py:1973-2014 | the first bound observation and verdict are recorded with the move; a different one is refused |
| JudgeDatabase.RunRows.Persist | src/recallops/api.py:1560-1590 | assessment and outcome memory are written with the move, or all rolled back |
| JudgeDatabase.RunRows.AssessPostcheck | src/recallops/api.py:1514-1600 | the assessment route behind its idempotency record: commits its step or changes nothing |
| JudgeDatabase.RunRows.DispositionAtomically | src/recallops/api.py:1166-1238 | govern the memory, move to reviewed, request the receipt: all or nothing |
| JudgeDatabase.RunRows.RevokeAtomically | src/recallops/api.py:1268-1294 | an active reviewed memory loses its authority without a transition |
| JudgeDatabase.RunRows.RequestReceiptForHead | src/recallops/ledger.py:363-398 | only a reviewed head becomes a receipt's target |
| JudgeDatabase.RunRows.ResetAtomically | src/recallops/api.py:887-909 | run and workflow end together, or neither does |
| JudgeAcceptance.AcceptedExactly | src/recallops/api.py:711-2074 | a request is accepted exactly under the conditions listed for its kind in terms of rows, request and time; a refused one changes nothing |
| JudgeAcceptance.OperatorLeavesExactly | src/recallops/api.py:1822-2074 | the whole new state after an accepted decision, execution, retry or reset |
| JudgeAcceptance.SystemLeavesExactly | src/recallops/api.py:1946-2014 | the whole new state after an accepted observation, the first one being kept, or an unavailable postcheck |
| JudgeAcceptance.StageLeavesExactly | src/recallops/api.py:1472-1508 | an accepted proposal under a new key moves to the operator's approval and answers the key, nothing else |
| JudgeAcceptance.AssessLeavesExactly | src/recallops/api.py:1514-1600 | an accepted assessment under a new key moves to review, answers the key, and stores its assessment and its outcome memory unless they exist |
| JudgeAcceptance.DisposeLeavesExactly | src/recallops/api.py:1166-1238 | an accepted disposition leaves the memory reviewed as decided and makes the new head the receipt's target |
| JudgeAcceptance.RevokeLeavesExactly | src/recallops/api.py:1268-1294 | an accepted revocation changes the memory only, and leaves it revoked |
| RunInvariants.MakeRunIsFaithful | src/recallops/ledger.py:172-224 | every event the ledger builds records its transition and verifies against the head |
| RunInvariants.MoveKeepsInv | src/recallops/workflow.py:391-444 | a committed move that earned its state keeps the whole run invariant |
| RunInvariants.StageKeepsInv | src/recallops/api.py:1472-1508 | staging keeps the run invariant |
| RunInvariants.ApproveKeepsInv | src/recallops/api.py:1822-1858 | approving or rejecting keeps the run invariant |
| RunInvariants.ExecuteKeepsInv | src/recallops/api.py:1891-1932 | executing keeps the run invariant |
| RunInvariants.UnavailableKeepsInv | src/recallops/api.py:1946-1960 | an unavailable postcheck keeps the run invariant |
| RunInvariants.RetryKeepsInv | src/recallops/api.py:2043-2074 | a retry keeps the run invariant |
| RunInvariants.ObserveKeepsInv | src/recallops/api.py:1973-2014 | an observation keeps the run invariant |
| RunInvariants.AssessKeepsInv | src/recallops/api.py:1514-1600 | an assessment keeps the run invariant |
| RunInvariants.DisposeKeepsInv | src/recallops/api.py:1166-1238 | a disposition keeps the run invariant |
| RunInvariants.RevokeKeepsInv | src/recallops/api.py:1268-1294 | a revocation keeps the run invariant |
| RunInvariants.ResetKeepsInv | src/recallops/api.py:887-909 | a reset keeps the run invariant |
| RunInvariants.DoneMeansInOrder | src/recallops/workflow.py:21-47 | k milestones done means k increasing positions at which they stand in the ledger |
| JudgeTheorems.ReviewedRunIsAccepted | src/recallops/receipt_finalizer.py:271-467 | every run at reviewed, after any refused calls, retries, aborts and revocations, has a verified chain and causal bindings for the digests its rows hold; the prefix verifier accepts exactly with one operator; the loader resolves its target, to those digests, exactly while the memory lives unrevoked |
| JudgeTheorems.LoadsExactly | src/recallops/receipt_finalizer.py:271-467 | in every reachable run, reviewed or not, and for every target a request could carry, the loader resolves it exactly when the run is live at reviewed, the target is the stored one, and the memory lives unrevoked |
| JudgeTheorems.JudgeSessionRunIsAccepted | src/recallops/receipts.py:248-322 | a reviewed run driven by one operator session is accepted by both offline checkers |
| JudgeTheorems.RevokedNeverLoads | src/recallops/receipt_finalizer.py:427-437 | once a reviewed memory is revoked no receipt target of its run ever resolves again, whatever follows |
| JudgeTheorems.ResetNeverLoads | src/recallops/receipt_finalizer.py:316-337 | a run reviewed and then reset keeps its receipt target and its memory, and the target never resolves again, whatever follows |
| JudgeTheorems.BindingDigestsAgree | src/recallops/receipts.py:83-90 | the routes' binding digests equal the ones the verifier recomputes |
| JudgeTheorems.RecordedIsRequired | src/recallops/receipts.py:93-141 | what the rows record for each state is what the verifier requires of it |
| JudgeTheorems.LockstepInEveryRun | src/recallops/workflow.py:391-444 | in every run the event count equals the epoch and the last event names the row's state, epoch and capabilities |
| JudgeTheorems.StepCommitsOrNot | src/recallops/api.py:711-770 | every request changes nothing, commits exactly one event under the epoch it named, or only revokes the memory |
| JudgeTheorems.RunExtends | src/recallops/store.py:426-523 | the ledger is append-only, evidence and replies are write-once, an ended run is frozen |
| JudgeTheorems.OneCommitPerEpoch | src/recallops/workflow.py:157-205 | of all requests naming one epoch, at most one ever commits an event |
| JudgeTheorems.ReplayedKeyWritesNothing | src/recallops/api.py:711-770 | a completed idempotency key never writes again, whatever runs in between and whatever input it carries |
| JudgeTheorems.RepeatedKeyIsAnsweredIff | src/recallops/api.py:711-770 | once a keyed request committed, and whatever ran since, a request under its key is answered exactly when it carries the same input; the rows stay, and the record holds that input and the epoch the first request reached |
| JudgeTheorems.RepeatIsNeverRefused | src/recallops/api.py:711-770 | a request repeated after it committed is never refused, whatever ran since |
| JudgeTheorems.NothingFollowsReset | src/recallops/workflow.py:522-549 | an accepted reset is the last change of a run |
| JudgeTheorems.NoPassageWithoutApproval | src/recallops/store.py:426-446 | no state at or past approved without the one stored approval, given and bound to the workflow's proposal |
| JudgeTheorems.RejectionIsFinal | src/recallops/service.py:512-530 | a rejected run never gets past awaiting approval, however often it is re-proposed |
| JudgeTheorems.ReviewedTookEveryMilestone | src/recallops/workflow.py:474-520 | every trace to reviewed shows propose, approve, execute, observe, assess and review in order |
| JudgeWitness.StraightRunIsReviewed | src/recallops/api.py:1166-1238 | for any two operators there is a run that reaches reviewed |
| JudgeWitness.TwoOperatorsAreRefused | src/recallops/workflow.py:518-519 | that run is accepted by the prefix verifier exactly when the operators are the same |
| JudgeWitness.RevokedBeforeFinalization | src/recallops/api.py:1268-1294 | a certified and then revoked run: both offline checkers accept its ledger, its target stands, and no continuation ever resolves it |
| ReceiptOutbox.Outbox.FindEarliest | src/recallops/receipt_outbox.py:54-58 | the earliest claimable request by creation time and id, if any is claimable |
| ReceiptOutbox.Outbox.ClaimNext | src/recallops/receipt_outbox.py:43-82 | both rows are leased and reopened for the earliest claimable request, or nothing changes |
| ReceiptOutbox.Outbox.FinalizeRequest | src/recallops/receipt_outbox.py:85-169 | one signed result is recorded under the lease, a delivered one is compared, anything else changes nothing |
| ReceiptOutbox.Outbox.ReleaseFailure | src/recallops/receipt_outbox.py:172-208 | a held lease is returned with a delay or dead-lettered, and its receipt fails |
| ReceiptWorkers.LeaseExcludesIff | src/recallops/receipt_outbox.py:43-82 | after a claim at t for a lease, in every run, and until the lease is ended under the claimer's own name, nobody's step before t + lease is over changes request or receipt; a poll leaves them alone exactly up to then, and afterwards takes this request or one before it by creation time and id |
| ReceiptWorkers.SignsExactly | src/recallops/receipt_outbox.py:85-169 | in every run a finalization signs exactly when the worker's name has the lease and its manifest names that receipt, and then leaves exactly these rows; otherwise it changes nothing and succeeds exactly for the same signature on a delivered request |
| ReceiptWorkers.ReleaseDecides | src/recallops/receipt_outbox.py:172-208 | a release by the lease's holder fails the receipt under its code and dead-letters the request exactly when the failure is final or the attempts are used up, for good; otherwise nobody changes it before the delay is over, and afterwards a poll takes it unless an older one waits |
| ReceiptWorkers.ReleasesExactly | src/recallops/receipt_outbox.py:172-208 | a release is carried out exactly under a bounded code, by the name that holds the request, while its receipt is unsigned, and then leaves exactly these rows |
| ReceiptWorkers.RetryDelayDoubles | src/recallops/receipt_outbox.py:172-208 | two seconds after a first failure, doubled by each further one, at most 256 |
| ReceiptWorkers.EndedForGood | src/recallops/receipt_outbox.py:43-208 | in every run a delivered or dead-lettered request and its receipt never change again |
| AuthorityArchive.S3AuthorityBundleArchive.PersistBundle | src/recallops/authority_archive.py:45-117 | the conditional put and its reconciliation, for every answer of the store |
| AuthorityArchive.PersistedExactly | src/recallops/authority_archive.py:45-117 | archived exactly when the text is a bundle, the store answered, and the object now under the key has its digest, a version and encryption, and was just created or shown by the store |
| AuthorityArchive.PersistedIsStored | src/recallops/authority_archive.py:45-117 | no object is ever replaced, and success names the version and digest of the one stored object |
| AuthorityArchive.LostPutIsRecovered | src/recallops/authority_archive.py:45-117 | a put stored with its answer lost is recovered by repeating it, whatever was attempted in between: success exactly for the same digest of a versioned, encrypted object |
| ReceiptWorkers.StepKeepsInv | src/recallops/receipt_finalizer.py:524-607 | claims, failures, archiving, finalization, releases and crashes keep the system invariant |
| ReceiptWorkers.RowsStayCoupled | src/recallops/receipt_outbox.py:43-208 | in every run delivered iff signed, processing implies unsigned, dead-lettered implies failed |
| ReceiptWorkers.NoLostTarget | src/recallops/receipt_outbox.py:66-81 | the lost-target errors of claim and release are unreachable in every run; finalize's repeats a check under the row lock and is dead code |
| ReceiptWorkers.ReleaseCountsOnce | src/recallops/receipt_outbox.py:172-208 | a successful release uses up exactly one attempt number |
| ReceiptWorkers.ReleasesAreBounded | src/recallops/receipt_outbox.py:182-208 | a request sees at most max_attempts successful failure releases, however workers crash or share names |
| ReceiptWorkers.SignedForGood | src/recallops/receipt_outbox.py:130-169 | a signed receipt never changes again and names the version and digest of the one object archived for it |
| ReceiptWorkers.SupersededChangesNothing | src/recallops/receipt_outbox.py:105-129 | a worker whose lease has since been claimed again, and whose name no other worker uses, can change neither row |
| ReceiptWorkers.HarmlessOnceSupersededIff | src/recallops/receipt_outbox.py:105-208 | a worker is unable to change rows once superseded, in every run, exactly when its name is its own; under a shared name there is a run in which it releases the other's lease |
| ReceiptWorkers.SupersededForGood | src/recallops/receipt_outbox.py:50-58 | the attempt number never goes back and grows exactly at claims |
| ReceiptWorkers.ReceiptFinalizationWorker.Failed | src/recallops/receipt_finalizer.py:609-622 | exactly one release under the bounded code; the result reports that code and whether the request was dead-lettered |
| ReceiptWorkers.ReceiptFinalizationWorker.Deliver | src/recallops/receipt_finalizer.py:582-599 | archive first, then finalize, by this worker's own steps; every failure ends with the release it reports |
| ReceiptWorkers.ArchiveDecides | src/recallops/receipt_finalizer.py:582-607 | after the archive's answer a worker goes on to deliver exactly when the bundle is archived, with the version and digest it has there; a text that is no bundle fails for good, every other failure can be retried |
| ReceiptWorkers.ReceiptFinalizationWorker.RunOnce | src/recallops/receipt_finalizer.py:524-607 | one run_once, its transactions each at their own time, is a run of this worker's own steps, none a crash, from idle to idle; signed is reported only for a signed receipt, a failure only after its release |
| WebMcp.ModelContextPage.Reconcile | src/recallops/static/webmcp.js:190-220 | withdraw what is unwanted, then reserve up to the first await |
| WebMcp.ModelContextPage.Resume | src/recallops/static/webmcp.js:221-244 | keep or discard the registration when the browser answers, then go on with the loop |
| WebMcp.ModelContextPage.WithdrawUnwanted | src/recallops/static/webmcp.js:204-212 | exactly the unwanted registrations are aborted and forgotten |
| WebMcp.ModelContextPage.RegisterFrom | src/recallops/static/webmcp.js:213-220 | skip registered names, reserve the next one before awaiting |
| WebMcp.StartKeepsInv | src/recallops/static/webmcp.js:190-220 | a new call keeps the invariant over any number of suspended calls |
| WebMcp.SettleKeepsInv | src/recallops/static/webmcp.js:221-244 | every resumption keeps the invariant |
| WebMcp.LiveIsStored | src/recallops/static/webmcp.js:204-243 | under every interleaving a controller is un-aborted iff it is the one stored for its name, so at most one per tool is live |
| WebMcp.QuiescentPageMatchesServer | src/recallops/static/webmcp.js:190-244 | with no call suspended the registered tools are within the last desired set, and missing ones were rejected since |
| WebMcp.RejectedIsAborted | src/recallops/static/webmcp.js:221-244 | at every moment of every interleaving a controller whose registration was rejected is aborted and not stored; an un-aborted one was accepted or is still awaited |
| WebMcp.AnswersAreFinal | src/recallops/static/webmcp.js:221-222 | the answer to an attempt never changes, so that the above holds ever after |
| WebMcp.QuiescentPageIsAccepted | src/recallops/static/webmcp.js:190-244 | with no call suspended the registered names are exactly the wanted ones whose latest attempt was accepted, each under that attempt's controller, and every wanted name was attempted |
| WebMcp.NextStateTriesAgain | src/recallops/static/webmcp.js:213-221 | a wanted name that is not registered, because it was rejected or withdrawn, is attempted anew by the next server state that wants it |
| WebMcp.RejectedIsRemembered | src/recallops/static/webmcp.js:232-241 | the remembered rejections are exactly the wanted names rejected since the last server state |
| WebMcp.AnswersMakeProgress | src/recallops/static/webmcp.js:213-243 | every answer ends its call or shortens it, and touches no other call |
| WebMcp.AnswersAreBounded | src/recallops/static/webmcp.js:213-243 | while no server state arrives, suspended calls are answered at most once per await they can still come to, and none is suspended iff no await is left |
| WebMcp.QuiescenceIsReached | src/recallops/static/webmcp.js:190-244 | from every reachable page, in any order of accepting and rejecting answers, no call is suspended after as many answers as awaits were left |
| WebMcp.DistinctMembers | src/recallops/static/webmcp.js:203 | the desired set keeps every name once |
| Governance.VersionCompatibility | src/recallops/store.py:57-85 | between zero and one; above 0.2 iff equal or of one major, one iff equal or within the line the memory's policy allows, zero only between parsable versions |
| Governance.CompatibilityTable | src/recallops/store.py:57-85 | which of 0, 0.2, 0.35, 0.8 and 1 two different versions score, each as an equivalence |
| Governance.CompatibilityIsSymmetric | src/recallops/store.py:57-85 | it does not matter which version is the memory's |
| Versions.ParsesExactlyVersions | src/recallops/store.py:51-54 | a text parses exactly when it is printed from two numbers with an optional mark, patch number and suffix, and then to those two numbers |
| Versions.VersionsCompareByNumbers | src/recallops/store.py:57-85 | two differently written versions are compared by their major and minor numbers and the memory's policy |
| Versions.OtherTextsCompareByEquality | src/recallops/store.py:57-75 | a text that writes no version is compatible with itself only |
| Governance.GrantedExactly | src/recallops/store.py:129-219 | a governance request is granted exactly under the conditions on memory, request and store listed per action: states, reason codes, notes, independence, evidence, outcome, expiry and replacement |
| Governance.GovernanceTarget | src/recallops/store.py:129-219 | a granted action reaches the target the lifecycle allows, an activation is independent, a supersession has an admissible replacement |
| MemoryStore.InMemoryStore.AddMemory | src/recallops/store.py:291-292 | the memory is appended |
| MemoryStore.InMemoryStore.SaveOutcomeMemory | src/recallops/store.py:363-372 | one outcome memory per incident: the first stays |
| MemoryStore.InMemoryStore.GovernMemory | src/recallops/store.py:374-424 | the memory and its log entry change together, or nothing does |
| MemoryStore.ReachableInv | src/recallops/store.py:129-219 | every admissible history keeps log, activation and supersession invariants |
| MemoryStore.LogReproducesStore | src/recallops/store.py:374-424 | replaying the log from the entered memories gives every current state and governance version; valid iff active throughout |
| MemoryStore.LogIsGuarded | src/recallops/store.py:129-219 | in every reachable store every log entry is about exactly one entered memory and allowed for it: certified only conclusive outcomes for accepted evidence and by another than the observer, revoked only for a revocation reason, OTHER_BOUNDED never without a note |
| MemoryStore.RecordsAreStamped | src/recallops/store.py:374-424 | in every reachable store a memory names the last actor of its log, and is dated superseded, revoked or expired as its log says |
| MemoryStore.OutcomesAreIndexed | src/recallops/store.py:363-424 | in every reachable store the index holds the outcome memory of its incident as it is now |
| MemoryStore.SupersessionEnds | src/recallops/store.py:129-219 | following supersession pointers ends within the number of memories at a non-superseded memory of the same tenant and service, and all versions on the way are equal or share a major |
| Retrieval.FindMemories | src/recallops/store.py:665-775 | the merge of the lanes equals its specification |
| Retrieval.SortedKeeps | src/recallops/store.py:294-325 | sorting permutes and puts strictly descending |
| Retrieval.FindsInOrder | src/recallops/store.py:294-325 | the in-memory store returns a memory only behind every eligible one ahead of it by weighted lead, then similarity, creation time and id |
| Retrieval.LanesFindInOrder | src/recallops/store.py:665-775 | so does the database, among the rows its lanes answered with |
| Retrieval.WeightsDecide | src/recallops/store.py:45-48 | in both stores, whatever the limit: at least as good in all four inputs and better in one stands first, and leads trade at 11 to 5 to 3 to 1, in both directions |
| Retrieval.OneSlotGoesToTheFirst | src/recallops/store.py:294-325 | with room for one the result is the eligible memory ahead of all others |
| Retrieval.FindsExactlyThoseInForce | src/recallops/store.py:294-325 | with room for all the result holds exactly the memories of the scope in force, each once |
| Retrieval.LanesKeepProtected | src/recallops/store.py:682-775 | whatever else the table holds, the merged lanes keep each success of the exact version or of a wider policy, and each memory in force, that at most a lane's room of its kind is as near as |
| Retrieval.LaneFindIsSound | src/recallops/store.py:665-775 | whatever eligible rows the lanes answer with, the result is duplicate-free, eligible, descending and within the limit |
| Retrieval.LanesAgreeWithFilterSortCut | src/recallops/store.py:665-775 | it equals the in-memory filter, sort and cut when the scope fits the semantic pool and the eligible rows fit the candidate limit |
| Retrieval.NegativeLimitExactly | src/recallops/store.py:665-669 | for every negative limit, which the settings exclude, the two stores agree iff the in-memory slice drops everything |
| Retrieval.CounterfactualExactly | src/recallops/service.py:767-813 | on the in-memory store the pre-review choice is the choice without the reviewed memory, except exactly when it is empty and the cut hid a usable runner-up |
| Retrieval.CounterfactualDiffers | src/recallops/service.py:794-807 | an in-memory store with one slot for which the pre-review choice is empty and the true counterfactual is not |
| Retrieval.CounterfactualAgrees | src/recallops/service.py:794-807 | on the in-memory store they agree whenever the choice is non-empty or nothing was cut |
| Retrieval.LaneCounterfactualExactly | src/recallops/service.py:767-813 | the same exact condition over the database's lanes, when none cuts anything off, however the queries break ties |
| Retrieval.CutLanesHideTheCounterfactual | src/recallops/store.py:665-775 | a store whose lanes cut, for which the non-empty pre-review choice is not the true counterfactual |
| Retrieval.ChangedAuthorityExactly | src/recallops/service.py:808-813 | over any retrieved candidates, the flag holds iff the governed choice is the reviewed memory |
| Retrieval.RetrievedWasIndependentlyActivated | src/recallops/store.py:294-325 | a memory that entered pending and is retrieved has an activation entry by someone other than its observer |
| Analysis.CandidateDecisions | src/recallops/service.py:477-510 | one decision per candidate, each the one its specification gives |
| Analysis.RecommendationIsJustified | src/recallops/service.py:172-197 | a recommendation is the first positive candidate, passes every threshold, has no close positive rival and is the one candidate reported as selected |
| Analysis.RecommendedExactly | src/recallops/service.py:172-197 | a candidate is recommended exactly when it is the first positive one, meets every threshold and has no close positive rival with another action |
| Analysis.AbstentionExactly | src/recallops/service.py:172-186 | the reasons for abstaining are empty exactly when there is a recommendation, and say when there is no candidate or no positive one |
| Analysis.AbstentionNamesShortfalls | src/recallops/service.py:172-186 | otherwise they are, in order, exactly what the first positive candidate fails |
| Analysis.DecisionExactly | src/recallops/service.py:477-510 | each candidate's reasons are exactly those that hold, in order; it is selected iff recommended and otherwise rejected iff there is a reason |
| Analysis.SelectedWithoutReasonsExactly | src/recallops/service.py:477-510 | the selected candidate carries no reason against it, except exactly when a close non-positive rival stands behind it |
| Analysis.SelectedYetAmbiguous | src/recallops/service.py:477-510 | two candidates for which that exception happens |
| Base64Url.DecodeUndoesEncode | src/recallops/receipts.py:381-394 | decoding undoes encoding on non-empty bytes; the empty text is refused |
| Base64Url.DecodeAcceptsExactlyEncodings | src/recallops/receipts.py:385-394 | the decoder accepts exactly the encoder's outputs, each for its own bytes |
| Base64Url.DecodeAcceptance | src/recallops/receipts.py:385-394 | in terms of the text: alphabet only, length not 1 modulo 4, zero trailing bits |
| CompactJws.AcceptsOnlyCompactForms | src/recallops/receipts.py:500-526 | a text verifies iff it is the compact form of the frozen header, one JSON object and a verifying 64-byte signature, with the version spelled 1 or true |
| CompactJws.TwoHeaderSpellings | src/recallops/receipts.py:510-513 | both spellings are accepted when signed |
| TrustedKeys.BuildRegistry | src/recallops/receipts.py:530-584 | the constructor accepts exactly the documents with unique keys, one root unless empty, unique transition targets, a verified chain to every other key, and no unused transition |
| TrustedKeys.Establish | src/recallops/receipts.py:546-579 | the worklist ends, in any order, and succeeds iff every key is reached from the root by verifying transitions |
| TrustedKeys.Pass | src/recallops/receipts.py:547-579 | a pass establishes only reached keys, and one without progress blocks every pending key |
| TrustedKeys.IndexKeys | src/recallops/receipts.py:532-534 | the key index, refused iff two keys share a kid |
| TrustedKeys.IndexTransitions | src/recallops/receipts.py:541-545 | the transition index, refused iff two transitions share a target |
| TrustedKeys.AcceptedKeysAreChained | src/recallops/receipts.py:529-584 | in an accepted registry every key has a verified chain from the one root |
| TrustedKeys.LoadRegistry | src/recallops/receipts.py:529-584 | the registry over the program's own transition verifier accepts exactly the acceptable documents |
| TrustedKeys.AcceptedKeysAreSigned | src/recallops/receipts.py:560-576 | every key but the root of an accepted registry has exactly one transition, a compact JWS under another reached key's kid and 32-byte key, whose payload names both kids and the digest of its own JWK |
| Bundle.ParseChecksums | src/recallops/authority_bundle.py:310-328 | accepts exactly the printed form of a covering entry list, and returns those entries |
| Bundle.PrintIsInjective | src/recallops/authority_bundle.py:176-180 | two covering entry lists never print the same text |
| Bundle.ValidateBundleFiles | src/recallops/authority_bundle.py:331-346 | accepts exactly the file sets whose checksum file is byte for byte the one printed for them and whose index verifies, with or without its defaulted version, and returns their digest |
| Bundle.OneDigestOneBundle | src/recallops/authority_bundle.py:331-346 | two file sets that validate to one digest are byte-identical, unless the hashed bytes collide |
| Bundle.BuiltBundleValidates | src/recallops/authority_bundle.py:256-307 | every built bundle validates, to its own digest |
| BundleContents.BuiltExactly | src/recallops/authority_bundle.py:208-307 | a bundle is built exactly from trusted, complete parts of safe size whose true index is the one the receipt binds; it then holds each part under its path, the index with each file's own digest and size, and the checksums of them all |
| BundleContents.IndexExactly | src/recallops/authority_bundle.py:74-96 | a document passes as an evidence index exactly when it lists, in frozen order, a hexadecimal digest and a size in bounds for every auxiliary path, with any version or none |
| BundleContents.IndexIsNotCompared | src/recallops/authority_bundle.py:331-346 | in a valid file set any other well-formed index, with the checksums made to match, is valid again: validation never compares the index with the files |
| Bundle.IndexFits | src/recallops/authority_bundle.py:240-253 | the evidence index of a layout of few short paths fits the file limit |
| Bundle.FrozenIsWellFormed | src/recallops/authority_bundle.py:43-62 | the frozen layout meets the hypotheses of these results |
| Bundle.FrozenIsSorted | src/recallops/authority_bundle.py:176-180 | the covered paths are listed in sorted order |
| Bundle.FrozenIsPartitioned | src/recallops/authority_bundle.py:43-62 | auxiliary, signed and documentation files make up the covered set without overlap |
| Bundle.FrozenIsSmall | src/recallops/authority_bundle.py:43-62 | the frozen layout has few and short paths |
| Migrate.Schema.ApplyMigrations | src/recallops/migrate.py:90-155 | the loop over files with bounded retries, and the list of names it returns, equal their specification |
| Migrate.AloneExtendsPrefix | src/recallops/migrate.py:122-155 | alone, a migrator finishes iff no file fails too often, having executed and listed exactly the missing files in order |
| Migrate.ListingIsExactIff | src/recallops/migrate.py:142-155 | what a lone migrator lists names each executed file exactly once iff no failure at commit hit one of them |
| Migrate.ListedIsExecutedIff | src/recallops/migrate.py:122-155 | over any table and any interleaving, a migrator's list is as multiset what it executed and what it listed in vain, and equals what it executed iff nothing was listed in vain |
| Migrate.ListedWithoutExecuting | src/recallops/migrate.py:122-155 | a run in which a migrator returns with a file on its list that another executed |
| Migrate.ChangedIsRefused | src/recallops/migrate.py:122-155 | a file changed since it was recorded is never executed or listed: the first attempt that sees it refuses it, unless the attempts run out before |
| Migrate.ChangedStops | src/recallops/migrate.py:134-155 | among any others, the migrator that finds one stops there and changes nothing |
| Migrate.MigrationsRunInOrderOnce | src/recallops/migrate.py:113-155 | for any interleaving, retries and crashes the executed files are the next stretch of the list, each once and recorded; a migrator that returns leaves every file recorded |
| Migrate.AnyTableIsKept | src/recallops/migrate.py:122-155 | over any starting table no entry is lost or overwritten, each executed file was unrecorded and stands on exactly one migrator's list of executed names, and a migrator that returns leaves every file recorded as it is |
| Migrate.ReturnsUnlessDisturbed | src/recallops/migrate.py:113-155 | among any others, a migrator moves on by one file per transaction and returns after the last one, unless it crashes or fails five times in a row, when it stops |
| Sessions.AttemptLimiter.ConsumeAttempt | src/recallops/sessions.py:93-101 | one client's bucket moves on, the answer says whether it is within the limit |
| Sessions.WindowAllowsFirstAttempts | src/recallops/sessions.py:93-101 | in every window exactly the first limit attempts succeed |
| Sessions.SuccessesPerInterval | src/recallops/sessions.py:93-101 | any half-open interval of window length sees at most 2 * limit - 1 successes |
| Sessions.BoundIsReached | src/recallops/sessions.py:93-101 | that bound is reached for every limit |
| JudgeSessions.SessionRepository.GetRun | src/recallops/sessions.py:127-137 | looking at an overdue run marks it expired |
| JudgeSessions.SessionRepository.ActiveRunCount | src/recallops/sessions.py:191-197 | looks at every run and counts the active ones |
| JudgeSessions.SessionRepository.AddRun | src/recallops/sessions.py:119-125 | a run is added below capacity for a new tenant, or refused |
| JudgeSessions.SessionRepository.ResetActiveRun | src/recallops/sessions.py:139-151 | an active run is reset together with all its sessions, or nothing changes |
| JudgeSessions.SessionRepository.UseHandoff | src/recallops/sessions.py:173-189 | an open handoff of an active run is consumed, or refused |
| JudgeSessions.AddedExactly | src/recallops/sessions.py:119-125 | a run is added exactly when fewer runs than the limit are live and none has its tenant; all others have been looked at |
| JudgeSessions.ConsumedExactly | src/recallops/sessions.py:173-189 | a handoff is used exactly when it is unused, unrevoked and in time and its run is a live one of its tenant; nothing else changes |
| JudgeSessions.ResetExactly | src/recallops/sessions.py:139-151 | a reset ends an active run and revokes exactly its unrevoked sessions, all at that time |
| JudgeSessions.RevokedForGood | src/recallops/sessions.py:111-117 | a revoked session stays revoked, whatever happens |
| JudgeSessions.RunsStayDistinct | src/recallops/sessions.py:119-151 | in every history no two runs share a tenant, and every ended run is dated, an expired one not before its time |
| JudgeSessions.HandoffIsSingleUse | src/recallops/sessions.py:173-189 | a handoff is used at most once, ever, and only for an active unexpired run of its tenant |
| JudgeSessions.ResetEndsTheRun | src/recallops/sessions.py:139-151 | after a reset the run's sessions stay revoked and its handoffs stay unusable, for good |
| JudgeSessions.CapacityHolds | src/recallops/sessions.py:119-125 | there are never more active runs than the limit |

## Left out

- `created_at` and `updated_at` of workflow rows, and object identifiers of events other than the review's.
- Legacy routes (`execution`, `outcome`, `governance`, `postcheck-assessment`): the last writes a pending-review event without the outcome binding, so a run that used it is not covered by the judge-run theorems.
- Headers, cookies, CSRF, OIDC, reviewer scope beyond its subject checks, handoff and session expiry inside a judge run's steps: routes are modelled from their transaction on.
- In-memory fault injection between workflow and ledger: the in-memory ledger takes its event back but the workflow row is not restored. Lockstep is proved for atomic transactions.
- Workflow.WorkflowRepository.Transition: models the in-memory compare-and-swap; the database's conditional update and its retries are taken to be one atomic step.
- JudgeTheorems.ReviewedRunIsAccepted: the digests of assessment, verdict and memory are fields of their rows; recomputing them from the rows' contents, and the release identity checks of the loader, are not modelled.
- ReceiptWorkers.ReceiptFinalizationWorker.RunOnce: loading, signing and bundle construction are one input, a prepared bundle or a failure; upper-casing of dependency names is not modelled.
- `attempts <= max_attempts` is not claimed: a claim after a crash raises the number and only releases check it.
- AuthorityArchive.S3AuthorityBundleArchive.PersistBundle: objects are never deleted, and a head request sees the object that made a put conflict or nothing.
- WebMcp.ModelContextPage.Reconcile: the branch without native WebMCP support, rendering and activity messages.
- TrustedKeys.BuildRegistry: the schema checks of single keys (thumbprint, status, release list) and resolving a key for a release.
- Bundle.ValidateBundleFiles: the type coercions the schema library applies to a parsed evidence index.
- Bundle.BuiltBundleValidates: the causal, receipt, release and claim checks are one input; ZIP encoding and extraction.
- Governance.VersionCompatibility: versions use ASCII digits; the pattern also admits Unicode digits.
- Floating-point rounding in ranking; NULL columns beyond the options shown; the database's recall queries other than their nearest-row contract.
- Embedding, diagnosis, tool traces and confidence of an analysis; similarity-only baseline of the recurrence view.
- Migrate.Schema.ApplyMigrations: no other migrator writes between its attempts, the interleavings being the system's; table creation, and the lock row, which is what makes a file's transaction atomic.
- Sessions.AttemptLimiter.ConsumeAttempt: the limit and window are the same for all of one client's attempts in the theorems.
- `outbox.py`, `db_retry.py`, `release_evidence.py`, `evaluation.py`, bundle downloads and the reviewer and operator pages: easy, or input and output.
