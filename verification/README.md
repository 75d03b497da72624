# PuddingTeams state machines, verified

PuddingTeams is a server that keeps durable state for delegated agent runs. This project models its hardest
components in Dafny, one module each, and proves what each of them keeps over every run:

- **WorkspacePromotion**: the promotion of an isolated checkout back onto its target, with named backups,
  exclusive creates, a final fingerprint check and a reverse rollback.
- **WorkspaceLeases**: who may write which workspace tree: admission, exclusive leases, renewal, fencing, release.
- **BackendLease**: the protocol with which at most one backend process serves a data directory.
- **AcceptanceLedger**: matching observed notes with the notes already known, adoption, removal.
- **DelegationLifecycle**: compare-and-set transitions, the two-phase seal of a terminal outcome, recovery.
- **InteractionRounds**: approval rounds under concurrent respond calls.
- **LarkConnection**: an OAuth connection with one-time refresh tokens (section 6 of RFC 6749).
- **ExtensionRegistry**: the replacement of a running extension, or everything back as it was.
- **CalendarLog**: events with an operation log that makes requests exactly-once.
- **DelegationTimeline**: stored history plus live subscription.
- **TokenBatching**: collecting token events into batches.

`dafny verify dfyconfig.toml` checks the whole project.

## How to read it

Each module first defines the behaviour as functions on values, then proves lemmas about those functions, and
holds a class whose methods are the program's own steps: they change fields in loops and with early returns, and
their postconditions say that the new state is the function of the old one. What the program meets from outside
(other writers, failing operations, crashes, server replies, the clock, fresh ids) is an input, so the lemmas speak
about all of it. For each operation there are lemmas about its function that say, without the names of its parts,
when it succeeds, what it leaves, what it does not touch, and what its refusals mean. History variables (`rival`,
`origin`, `log`, `history`, `rounds`, `accepted`, `base`, `from`, `journaled`, `crashed`, `stranded`) record the past
and decide nothing.

Assumptions: SHA-256 over canonical data is injective; `randomUUID` and `Symbol` are fresh; writing a temporary
file and renaming it is atomic; a serialising queue runs its bodies one at a time.

## Results worth knowing

Some promises hold only under a condition. Each of these is proved with its exact condition, or with a concrete
run that shows the failure:

- A promotion without other writers is all-or-nothing unless the final copy or chmod leaves a partial file at the
  target, or the clean-up or the state write fails after at least one backup was deleted
  (`AllOrNothingExactly`). Only the second of the two can cost a baseline entry.
- Leases stay exclusive over an operation exactly when it is `Safe`: releasing or fencing an already released scope
  can erase somebody else's lease, and a takeover frees only the first lease in the way
  (`StepKeepsExclusiveExactly`). When the erased or remaining holder is live, two writers follow (the
  `Unsafe…AdmitsTwoWriters` lemmas and `UnsafeTakeoverErasesLease`); a dead holder's check fails for ever
  (`FencingIsPermanent`). A fence that only meets a rival under another key lets nobody in, and blocks the tree
  (`UnsafeFenceBlocks`).
- A journaled outcome survives every crash that startup recovery answers for, but a seal never compares outcomes:
  after an exception, an error path or a cancellation replaces it exactly when its own guard passes
  (`SealReplacesExactly`, `JournalSurvivesExactly`). Recovery passes over a run whose observation was lost, so there a
  second confirmation by a person replaces the first one's journal (`SecondConfirmationReplacesJournal`).
- A reopened approval round takes its revision from the copy the respond call read first, not from the round it
  answered. Only a reopening whose submission was ahead of that copy makes a revision repeat, and then an answer can
  cross rounds (`RoundsAreIsolated`, `UntimelyCrossesRounds`); such a submission that is refused, or that never
  reopens, does no harm.
- A failed extension update restores everything exactly when the extension had hooks before, or the failure came
  before the candidate was activated; otherwise its hooks stay behind and a second failed update puts them to work
  (`FailedUpdateRestoresExactly`, `StaleHooksRevive`). Factory epochs are never restored (`RollbackRenewsEpoch`).
  Registrations match their owners all the same (`RegistrationsMatchOwners`).
- A sync keeps a note exactly when the observation accounts for the note's path (`SyncKeepsNoteExactly`).
- A subscription is exact if and only if its start is not beyond the counter, or nothing up to it was appended since
  (`SubscriptionIsExact`). A failed append leaves a gap in the numbers unless a restart comes before the next stored
  event (`NumberedExactly`).

## Model

| member | source | states |
|---|---|---|
| WorkspacePromotion.ChangesRebuildOutput | apps/server/src/agent-runtime/workspace-execution.ts:329-337 | overlaying exactly the changed paths of the output onto the baseline gives the output |
| WorkspacePromotion.InstallKeepsInv | apps/server/src/agent-runtime/workspace-execution.ts:440-490 | one installation, with rivals in its three windows and a fault anywhere, keeps the loop invariant or stops where rollback is safe |
| WorkspacePromotion.InstallFromKeepsInv | apps/server/src/agent-runtime/workspace-execution.ts:962-964 | the whole install loop keeps that invariant, however it ends |
| WorkspacePromotion.PromotionNeverDestroysRivals | apps/server/src/agent-runtime/workspace-execution.ts:909-990 | whatever other writers do at the checkpoint, before each installation, after its baseline check, after its backup and before the final check, and wherever an operation fails: a foreign entry is still at its path; a change set is applied only if no foreign entry differs from the output; and unless clean-up or state write fails after a backup was deleted, a change set that is not applied costs no baseline entry |
| WorkspacePromotion.RollbackAmidRivals | apps/server/src/agent-runtime/workspace-execution.ts:492-500 | the same for a rollback with other writers at work between its steps |
| WorkspacePromotion.RollbackRestores | apps/server/src/agent-runtime/workspace-execution.ts:492-500 | undoing an undisturbed half-way promotion in reverse gives the starting disk back, entry for entry, with no backup left |
| WorkspacePromotion.QuietCommit | apps/server/src/agent-runtime/workspace-execution.ts:959-984 | an undisturbed run that proceeds ends applied exactly when nothing stopped it and the overlay is the output; otherwise the disk is untouched |
| WorkspacePromotion.PromotionIsAllOrNothing | apps/server/src/agent-runtime/workspace-execution.ts:909-990 | without other writers and without a harmful fault the target is the captured output, or everything is as before |
| WorkspacePromotion.HarmIsReal | apps/server/src/agent-runtime/workspace-execution.ts:962-984 | a harmful fault always leaves the disk neither untouched nor promoted |
| WorkspacePromotion.AllOrNothingExactly | apps/server/src/agent-runtime/workspace-execution.ts:909-990 | all-or-nothing if and only if the fault is not harmful |
| WorkspacePromotion.PromotionSucceeds | apps/server/src/agent-runtime/workspace-execution.ts:929-975 | with the guards passing, the checkout unchanged and no fault, the fingerprint check cannot fail and the target is the output |
| WorkspacePromotion.UnpromotedAnswers | apps/server/src/agent-runtime/workspace-execution.ts:909-944 | a call is refused, with everything as it was, exactly when the request is not admissible or its scope is fenced with the change set open; a settled change set is returned as it is; a changed checkout fails and a drifted target conflicts before any file is touched, and both fence the scope |
| WorkspacePromotion.RefusalsNameTheCause | apps/server/src/agent-runtime/workspace-execution.ts:912-928 | each refusal names a condition of the request that does not hold |
| WorkspacePromotion.InstallReports | apps/server/src/agent-runtime/workspace-execution.ts:440-490 | an installation on a path that no longer holds the baseline reports a conflict, and only a failing check or staging is reported as anything else |
| WorkspacePromotion.PromotionIsSettled | apps/server/src/agent-runtime/workspace-execution.ts:960-984 | a promotion that proceeds is applied with its scope promoted, or fenced and settled: as a conflict, which the call returns, or as a failure, which it raises and which needs a failing operation |
| WorkspacePromotion.ConflictsExactly | apps/server/src/agent-runtime/workspace-execution.ts:950-979 | it is a conflict if and only if a path the output creates is taken, an installation met a conflict, or tree or HEAD differ from the capture at the end |
| WorkspacePromotion.QuietAnswer | apps/server/src/agent-runtime/workspace-execution.ts:909-990 | the answer of an undisturbed promotion, from its inputs alone |
| WorkspacePromotion.FinishSucceeds | apps/server/src/agent-runtime/workspace-execution.ts:969-974 | clean-up and state write succeed exactly when no operation among them fails |
| WorkspacePromotion.FinishClears | apps/server/src/agent-runtime/workspace-execution.ts:969-974 | after a successful clean-up no backup of the promotion is left, and no other backup is touched |
| WorkspacePromotion.FinishLoses | apps/server/src/agent-runtime/workspace-execution.ts:969-974 | a clean-up that fails after its first deletion has lost a backup |
| WorkspacePromotion.RollbackLoses | apps/server/src/agent-runtime/workspace-execution.ts:492-500 | a path whose backup is gone comes out of the rollback empty |
| WorkspacePromotion.DisplacedReturns | apps/server/src/agent-runtime/workspace-execution.ts:475-482 | giving a displaced entry back leaves the disk as it was, backup and all |
| WorkspacePromotion.MidStops | apps/server/src/agent-runtime/workspace-execution.ts:475-482 | an installation stopped after its backup, given back or not, has destroyed no rival and no baseline entry, and the steps before it can still be rolled back |
| WorkspacePromotion.TargetWorkspace.InstallExact | apps/server/src/agent-runtime/workspace-execution.ts:440-490 | the installation of one path, step by step, does what `Install` says, in success and in each failure |
| WorkspacePromotion.TargetWorkspace.RollbackPromotion | apps/server/src/agent-runtime/workspace-execution.ts:492-500 | the reverse loop leaves the disk that `Rollback` describes |
| WorkspacePromotion.TargetWorkspace.FindOccupied | apps/server/src/agent-runtime/workspace-execution.ts:950-958 | finds a path that the output creates and the target already has |
| WorkspacePromotion.TargetWorkspace.CommitOrRollBack | apps/server/src/agent-runtime/workspace-execution.ts:959-984 | final check, clean-up and commit, or abort and rollback |
| WorkspacePromotion.TargetWorkspace.PromoteChangeSet | apps/server/src/agent-runtime/workspace-execution.ts:909-990 | the whole call: outcome on disk, verdict, scope state and change-set state |
| WorkspaceLeases.ContainsIsPrefix | apps/server/src/agent-runtime/workspace-execution.ts:211-217 | the relative-path test is the prefix order on canonical roots |
| WorkspaceLeases.OverlapsMeansSharedPath | apps/server/src/agent-runtime/workspace-execution.ts:211-217 | two roots overlap if and only if some path lies in both trees |
| WorkspaceLeases.StepKeepsExclusiveExactly | apps/server/src/agent-runtime/workspace-execution.ts:568-1047 | an operation keeps the lease table exclusive if and only if it is safe, a condition on request, tokens and tables that is read off before the call |
| WorkspaceLeases.UnsafeTakeoverAdmitsTwoWriters | apps/server/src/agent-runtime/workspace-execution.ts:623-645 | from every state: an unsafe takeover whose second holder is live on an overlapping tree lets two tokens pass on one tree at once |
| WorkspaceLeases.UnsafeTakeoverErasesLease | apps/server/src/agent-runtime/workspace-execution.ts:623-706 | from every state: an unsafe takeover whose second holder is live under the key of the request erases that holder's lease; once the new scope is released, the next request for the holder's tree is let in beside it |
| WorkspaceLeases.UnsafeReleaseAdmitsTwoWriters | apps/server/src/agent-runtime/workspace-execution.ts:1026-1047 | from every state: an unsafe release that erases the lease of a live scope lets the next request for its tree in beside it |
| WorkspaceLeases.UnsafeFenceAdmitsTwoWriters | apps/server/src/agent-runtime/workspace-execution.ts:1008-1024 | from every state: so does an unsafe fence under another scope's key, once the fenced scope is released |
| WorkspaceLeases.UnsafeFenceBlocks | apps/server/src/agent-runtime/workspace-execution.ts:1008-1024 | from every state: a fence of a released scope that meets rivals under other keys only changes no lease check and removes no rival's lease, but a request in the way of the fenced lease alone is refused where it was admitted before |
| WorkspaceLeases.ExclusiveMeansOneWriter | apps/server/src/agent-runtime/workspace-execution.ts:712-715 | of two exclusive scopes that pass the lease check the roots do not overlap |
| WorkspaceLeases.RunsKeepOneWriter | apps/server/src/agent-runtime/workspace-execution.ts:568-1047 | over every run of safe operations from an exclusive state, at most one owner token passes the check on any tree |
| WorkspaceLeases.ReachableHaveOneWriter | apps/server/src/agent-runtime/workspace-execution.ts:568-1047 | from the empty tables on, no run of safe operations reaches a state with two writers on one tree |
| WorkspaceLeases.StepKeepsDead | apps/server/src/agent-runtime/workspace-execution.ts:992-1047 | no operation, safe or not, revives a lease that is fenced, released or expired |
| WorkspaceLeases.FencingIsPermanent | apps/server/src/agent-runtime/workspace-execution.ts:599-621 | over every run with a clock that does not go back, the lease check of a dead scope fails for every token |
| WorkspaceLeases.RepeatedReleaseAdmitsTwoWriters | apps/server/src/agent-runtime/workspace-execution.ts:1026-1047 | a concrete run in which releasing a released scope lets two tokens pass on one tree |
| WorkspaceLeases.TakeoverAdmitsTwoWriters | apps/server/src/agent-runtime/workspace-execution.ts:623-645 | a concrete takeover that leaves a second overlapping lease held |
| WorkspaceLeases.WorkspaceExecutionCoordinator.Occupying | apps/server/src/agent-runtime/workspace-execution.ts:624 | the first held lease that stands in the way, in table order |
| WorkspaceLeases.WorkspaceExecutionCoordinator.ReuseScope | apps/server/src/agent-runtime/workspace-execution.ts:599-622 | the reuse of a scope, with each refusal |
| WorkspaceLeases.AdmissionGrantsExactly | apps/server/src/agent-runtime/workspace-execution.ts:661-706 | a new scope passes the lease check with its own token and no other, in exclusive mode until its time is up, in read-only mode never; for every other scope the check is as before |
| WorkspaceLeases.AdmittedCanBeReused | apps/server/src/agent-runtime/workspace-execution.ts:599-706 | a round trip: what was admitted is found again by the same request with its scope id and token, as long as its time is not up, and nothing is added |
| WorkspaceLeases.NewScopeAnswers | apps/server/src/agent-runtime/workspace-execution.ts:568-706 | a writer is admitted when nobody is in the way, and otherwise only by taking over a lease whose scope is active and whose owners are all closed, which ends that scope; refusals name a live lease, or a fenced or expired one, which is fenced then; a refusal grants nothing |
| WorkspaceLeases.RenewalExtendsExactly | apps/server/src/agent-runtime/workspace-execution.ts:992-1006 | renewal succeeds exactly for the owner of a live lease; the scope's token then passes until the timeout has gone by from now, scope and table hold the same lease, and nothing else changes |
| WorkspaceLeases.ReuseExtendsExactly | apps/server/src/agent-runtime/workspace-execution.ts:599-622 | reuse succeeds exactly for an active scope that the request names as it is, with a live lease; the owner joins and the lease is extended from now |
| WorkspaceLeases.FenceEndsGrant | apps/server/src/agent-runtime/workspace-execution.ts:1008-1024 | fencing ends the scope for every token, keeps its lease held in the table, and changes no other check |
| WorkspaceLeases.ReleaseEndsGrant | apps/server/src/agent-runtime/workspace-execution.ts:1026-1047 | releasing ends the scope for every token, frees the key of its lease, and changes no other check |
| WorkspaceLeases.PromotionEndsGrant | apps/server/src/agent-runtime/workspace-execution.ts:909-985 | a settled promotion ends its scope, applied or not, and touches no lease |
| WorkspaceLeases.OnlyFinishedScopesAreTakenOver | apps/server/src/agent-runtime/workspace-execution.ts:599-645 | over every run: a scope is shared only by owners of one kind and native session, each with a name, and a request for a new scope ends an active one only if all its owners are closed |
| WorkspaceLeases.WorkspaceExecutionCoordinator.BeginScope | apps/server/src/agent-runtime/workspace-execution.ts:568-706 | the whole admission: expiry, takeover, conflict, reuse, creation |
| WorkspaceLeases.WorkspaceExecutionCoordinator.RenewLease | apps/server/src/agent-runtime/workspace-execution.ts:992-1006 | renewal of a live lease by its owner |
| WorkspaceLeases.WorkspaceExecutionCoordinator.FenceScope | apps/server/src/agent-runtime/workspace-execution.ts:1008-1024 | fencing of scope and lease |
| WorkspaceLeases.WorkspaceExecutionCoordinator.ReleaseScope | apps/server/src/agent-runtime/workspace-execution.ts:1026-1047 | release of scope and lease |
| BackendLease.AtMostOneHolder | apps/server/src/paths.ts:162-201 | over all interleavings of candidates, with crashes at any step, releases, stale-file removal and pid reuse, no two live processes hold the lease, and the holder's file is in the directory |
| BackendLease.OneHolderSinceBoot | apps/server/src/paths.ts:162-201 | the same from every boot on, whatever files earlier boots left behind |
| BackendLease.CheckDecides | apps/server/src/paths.ts:185-194 | a check turns the candidate away from an entry that is no lease or whose process lives, and deletes any other, and it alone |
| BackendLease.QuittingLeavesNothing | apps/server/src/paths.ts:175-201 | who fails, was turned away or releases can remove its own file, and only that one goes |
| BackendLease.LoneRunAcquires | apps/server/src/paths.ts:174-201 | from the creation of its file among stale ones, every run of an undisturbed candidate ends with the lease and its own file only |
| BackendLease.LoneCandidateAcquires | apps/server/src/paths.ts:183-197 | such a run exists: it deletes exactly the stale files on its list |
| BackendLease.LeaseDirectory.AcquireLease | apps/server/src/paths.ts:162-202 | one candidate's loop succeeds exactly when every entry is a dead process's lease, leaves only its own file then, and on failure removes its own file and nothing it could not prove stale |
| AcceptanceLedger.SyncKeepsWellFormed | apps/server/src/knowledge/acceptance.ts:241-311 | a sync keeps keys equal to identities, and paths, note ids and acceptance ids pairwise distinct |
| AcceptanceLedger.SyncKeepsNoteExactly | apps/server/src/knowledge/acceptance.ts:241-311 | a sync keeps an earlier note, on exactly one entry, if and only if the observation accounts for its path |
| AcceptanceLedger.SyncIsIdempotent | apps/server/src/knowledge/acceptance.ts:241-311 | the same observation a second time changes nothing: tables, revision, intents, history, id supply |
| AcceptanceLedger.SamePathContinues | apps/server/src/knowledge/acceptance.ts:256-272 | a note on the item's own path is continued: kept as it is, or as a new version with an update in the history |
| AcceptanceLedger.MarkedNoteMoves | apps/server/src/knowledge/acceptance.ts:257-260 | a moved note, edited or not, is continued by its declared id or disk mark when one gone note alone bears it: its note id stays, and the history gains the renaming from its old path and content |
| AcceptanceLedger.AlikeNoteMoves | apps/server/src/knowledge/acceptance.ts:261-264 | when no mark decides, a content that is unique on both sides continues the moved note in the same way |
| AcceptanceLedger.UnmatchedIsCreated | apps/server/src/knowledge/acceptance.ts:266-285 | when no rule applies the note id is fresh and the history gains a creation |
| AcceptanceLedger.MoveIsDetected | apps/server/src/knowledge/acceptance.ts:256-285 | the same from the inputs alone: when nothing else is about the gone note or the item, the note id follows the move |
| AcceptanceLedger.UnobservedIsMarked | apps/server/src/knowledge/acceptance.ts:286-306 | a note that no item continues keeps everything but its availability: as it was where it is guarded, changed where it cannot be read, missing where it is gone, with a deletion in the history the first time |
| AcceptanceLedger.RevisionMovesExactly | apps/server/src/knowledge/acceptance.ts:274-308 | the revision moves by one if and only if the ledger then holds a new version or a note whose loss was noticed |
| AcceptanceLedger.HistoryIsSound | apps/server/src/knowledge/acceptance.ts:274-300 | each event a sync adds has an id of its own and speaks of a version that the ledger then holds, or of a note that vanished |
| AcceptanceLedger.ControlDocumentsExactly | apps/server/src/knowledge/note-paths.ts:11-18 | which documents are control documents |
| AcceptanceLedger.AdoptOneKeepsWellFormed | apps/server/src/knowledge/acceptance.ts:335-369 | adopting one note, with re-keying and removal of other keys on its path, keeps the ledger well formed |
| AcceptanceLedger.AdoptedExactly | apps/server/src/knowledge/acceptance.ts:335-369 | what adopting one note leaves: its entry, no other on its path, every other as it was; the note id and sources it takes over; its history |
| AcceptanceLedger.BatchIsAdopted | apps/server/src/knowledge/acceptance.ts:313-376 | a batch is adopted exactly when all its items may be and the revision is current; the revision moves by one and each item stands as accepted unless a later one replaces it |
| AcceptanceLedger.RemovedExactly | apps/server/src/knowledge/acceptance.ts:378-393 | removal takes out exactly the named notes, never a control document |
| AcceptanceLedger.DiscardedExactly | apps/server/src/knowledge/acceptance.ts:220-239 | an intent is discarded by its own operation id and by no other |
| AcceptanceLedger.RunsKeepWellFormed | apps/server/src/knowledge/acceptance.ts:221-394 | over every run of sync, adopt, remove and manual-edit intents the ledger is well formed |
| AcceptanceLedger.KnowledgeAcceptanceStore.FindPrevious | apps/server/src/knowledge/acceptance.ts:256-265 | the earlier note an item continues: same path, then a unique id or disk mark, then a hash unique on both sides |
| AcceptanceLedger.KnowledgeAcceptanceStore.SyncExternal | apps/server/src/knowledge/acceptance.ts:241-311 | the two loops over items and earlier notes compute `Sync` on the two tables |
| AcceptanceLedger.KnowledgeAcceptanceStore.AdoptBatch | apps/server/src/knowledge/acceptance.ts:313-376 | the batch is taken whole and advances the revision, or is refused with nothing changed |
| AcceptanceLedger.KnowledgeAcceptanceStore.RemoveEntries | apps/server/src/knowledge/acceptance.ts:379-394 | the named notes go, control documents stay, and the revision moves exactly when something went |
| AcceptanceLedger.EditIsAttributed | apps/server/src/knowledge/acceptance.ts:248-285 | the next sync attributes a new version of an announced file to its author when the content is the announced one, to nobody otherwise, and uses the intent up |
| DelegationLifecycle.SealedStays | apps/server/src/agent-runtime/delegation-store.ts:273-296 | a sealed record keeps state, result, receipt and contract whatever patch is asked for |
| DelegationLifecycle.UpdateExactly | apps/server/src/agent-runtime/delegation-store.ts:248-296 | a patch is refused exactly when it would change a sealed field or end the record without a receipt; applied, it sets the fields it names and no other |
| DelegationLifecycle.JournalExactly | apps/server/src/agent-runtime/runtime.ts:1219-1227 | the journal write, field by field, and when it lands |
| DelegationLifecycle.SealExactly | apps/server/src/agent-runtime/runtime.ts:1210-1259 | the whole seal of an open record lands exactly when its guard passes, and then leaves outcome, receipt, handles and no journal |
| DelegationLifecycle.CreatedIsFresh | apps/server/src/agent-runtime/delegation-store.ts:218-242 | a created record is the start of a run, bound to its operation and contract |
| DelegationLifecycle.FirstTerminalWins | apps/server/src/agent-runtime/delegation-store.ts:248-330 | over every interleaving of the runtime's writes, with any stale copies, at most one seal is applied, a record is terminal exactly when it has a receipt, and from then on no sealed field changes |
| DelegationLifecycle.SealIsCrashSafe | apps/server/src/agent-runtime/runtime.ts:1210-1259 | whatever crashes, restarts, cancellations and losses of observation, the Driver runs at most once, and never again once the run has left admission; unless a seal is left unfinished with nobody to resume it, a terminal record holds the first journaled outcome; and if an orphan crashed before any journal, that can only be the server restart |
| DelegationLifecycle.RecoverySeals | apps/server/src/agent-runtime/runtime.ts:1992-2107 | after any crash an undisturbed recovery seals the outcome the record holds, or the server restart |
| DelegationLifecycle.SealReplacesExactly | apps/server/src/agent-runtime/runtime.ts:1210-1259 | a seal with another outcome than the journaled one replaces it if and only if its guard passes: the list of states for a copy without a journal, the copy's own state otherwise |
| DelegationLifecycle.JournalSurvivesExactly | apps/server/src/agent-runtime/runtime.ts:862-895 | over every run with crashes, exceptions, error paths, lost observation and its confirmation, and seals from stale copies, the record holds the journaled outcome throughout if and only if no event meets that guard with another outcome |
| DelegationLifecycle.FirstJournalWins | apps/server/src/agent-runtime/runtime.ts:1210-1259 | as long as no seal is left unfinished with nobody to resume it, no event does, and then the first journaled outcome is the one that is sealed |
| DelegationLifecycle.FailedEvidenceReplacesJournal | apps/server/src/agent-runtime/runtime.ts:862-895 | a run of the delegate call in which failing evidence collection makes its error path seal another outcome |
| DelegationLifecycle.SecondConfirmationReplacesJournal | apps/server/src/agent-runtime/runtime.ts:1992-2000 | a run without any exception in which a crash within a person's confirmation is not recovered, and a second confirmation seals another outcome |
| DelegationLifecycle.DelegationStore.CreateDelegation | apps/server/src/agent-runtime/delegation-store.ts:218-242 | an operation id names at most one delegation |
| DelegationLifecycle.DelegationStore.UpdateDelegation | apps/server/src/agent-runtime/delegation-store.ts:248-271 | the merge of a patch, or its refusal with nothing changed |
| DelegationLifecycle.DelegationStore.TransitionDelegation | apps/server/src/agent-runtime/delegation-store.ts:299-330 | compare-and-set on the execution state |
| DelegationLifecycle.DelegationStore.SealTerminal | apps/server/src/agent-runtime/runtime.ts:1210-1259 | journal, then outcome and receipt in one write, each with its own compare-and-set |
| InteractionRounds.CoversExactlyOnce | apps/server/src/agent-runtime/interaction-broker.ts:65-76 | nothing missing, extra or duplicate is the same as: the answered ids are a permutation of the requested ones |
| InteractionRounds.AcceptedExactly | apps/server/src/agent-runtime/interaction-broker.ts:44-95 | a submission is accepted exactly when it is none sent before, the interaction is pending at its revision, each request is answered once, and each answer has a known action and, unless it rejects, an offered scope; one rejection rejects |
| InteractionRounds.RefusalsNameTheCause | apps/server/src/agent-runtime/interaction-broker.ts:44-95 | each refusal names its cause |
| InteractionRounds.ConsumedExactly | apps/server/src/agent-runtime/interaction-broker.ts:96-110 | a checked submission is consumed exactly if the interaction is still what was read; a race lost to the same submission replays |
| InteractionRounds.OneCallDrives | apps/server/src/agent-runtime/runtime.ts:1557-1567 | over every run: while one call drives the worker, every call that arrives is turned away |
| InteractionRounds.RoundsAreIsolated | apps/server/src/agent-runtime/runtime.ts:1539-1843 | under every interleaving of respond calls each round consumes at most one submission, which names the round's revision; pending revisions strictly increase if and only if every reopening is by a call whose submission was not ahead of the copy it read first; and then each accepted submission answers each request of its round exactly once |
| InteractionRounds.RetryReplays | apps/server/src/agent-runtime/interaction-broker.ts:44-56 | until the run asks again a retry replays, other answers under the same operation conflict, and everything else is refused |
| InteractionRounds.LateRetryIsStale | apps/server/src/agent-runtime/interaction-broker.ts:57-59 | over every run whose reopenings are timely, a retry of any accepted submission is refused as stale once a later round has opened |
| InteractionRounds.ReopenAdvancesExactly | apps/server/src/agent-runtime/runtime.ts:1835-1843 | in every reachable state: a step keeps the revisions increasing if and only if it is not a reopening ahead of its time |
| InteractionRounds.UntimelyCrossesRounds | apps/server/src/agent-runtime/runtime.ts:1694 | a concrete run in which two rounds share a revision and an answer checked for one is accepted for the other |
| InteractionRounds.InteractionStore.TransitionInteraction | apps/server/src/agent-runtime/delegation-store.ts:388-416 | compare-and-set on revision and status |
| InteractionRounds.InteractionBroker.Submit | apps/server/src/agent-runtime/interaction-broker.ts:32-111 | all checks in their order on the copy that was read, then the compare-and-set |
| LarkConnection.RefreshTokenSentOnce | extensions/capabilities/lark-cli/connection.ts:168-199 | over every run, with crashes, network failures and failed writes at any await, a refresh token is sent again only after an explicit OAuth error for it |
| LarkConnection.PendingBlocks | extensions/capabilities/lark-cli/connection.ts:172-178 | once a token is marked pending on disk no restart, retry, reconfiguration or sign-out sends anything; only a new authorization can |
| LarkConnection.UncertainRefreshBlocks | extensions/capabilities/lark-cli/connection.ts:171-197 | a refresh, forced or due, that ends without a usable reply leaves the connection blocked, or the token unsent |
| LarkConnection.CachedTokenExactly | extensions/capabilities/lark-cli/connection.ts:168-171 | a token comes from the cache exactly when nobody forces a refresh and it is good for more than a minute; it is the stored one, and nothing changes |
| LarkConnection.RefreshIsRefused | extensions/capabilities/lark-cli/connection.ts:170-173 | without a user, with an uncertain refresh, or with a refresh token that is missing or over, nothing is sent and nothing changes |
| LarkConnection.RefreshSucceeds | extensions/capabilities/lark-cli/connection.ts:174-198 | a due refresh that meets no failure sends the old refresh token once, returns the new token, and stores all that was issued |
| LarkConnection.OAuthErrorsSettle | extensions/capabilities/lark-cli/connection.ts:179-190 | a final OAuth error drops the refresh token and the cached one, and any other leaves the user as it was, free to try again |
| LarkConnection.LostReplyIsUncertain | extensions/capabilities/lark-cli/connection.ts:185-197 | a reply that is lost, malformed or cannot be stored makes the process refuse further refreshes |
| LarkConnection.BotTokenIsStored | extensions/capabilities/lark-cli/connection.ts:159-167 | a bot token is returned exactly when it is fresh or issued and written, and is stored; the rest of the record stays |
| LarkConnection.ConfigureExactly | extensions/capabilities/lark-cli/connection.ts:129-147 | when a configuration is done, and the record, sessions and certainty it leaves |
| LarkConnection.AdoptExactly | extensions/capabilities/lark-cli/connection.ts:149-158 | when a record is adopted, and what it leaves |
| LarkConnection.BeginExactly | extensions/capabilities/lark-cli/connection.ts:264-288 | when an authorization begins; it is then the only open one, bound to app and revision |
| LarkConnection.PollStoresExactly | extensions/capabilities/lark-cli/connection.ts:297-316 | a poll writes the issued user exactly when the authorization is open, is still about the app and revision, and nothing ended it meanwhile |
| LarkConnection.PollKeepsOpenExactly | extensions/capabilities/lark-cli/connection.ts:297-322 | after which polls an authorization is still open; no other one is touched |
| LarkConnection.ClosedAuthorizationIsInert | extensions/capabilities/lark-cli/connection.ts:299-335 | polling a closed authorization does nothing, and cancelling closes one only |
| LarkConnection.LogoutExactly | extensions/capabilities/lark-cli/connection.ts:336 | when a sign-out is done, and what it leaves |
| LarkConnection.ReturnedTokenIsStored | extensions/capabilities/lark-cli/connection.ts:191-198 | a user token is handed out only when the stored record holds it, together with the refresh token issued with it |
| LarkConnection.StepKeepsInv | extensions/capabilities/lark-cli/connection.ts:129-336 | every operation keeps: what is stored and not pending may be sent, and at most one authorization is open |
| LarkConnection.LarkConnection.UserAccessToken | extensions/capabilities/lark-cli/connection.ts:168-199 | cached token, refusals, and the write-ahead refresh |
| LarkConnection.LarkConnection.AwaitTokens | extensions/capabilities/lark-cli/connection.ts:178-198 | what each server reply and each failed write leaves on disk and in memory |
| LarkConnection.LarkConnection.BotAccessToken | extensions/capabilities/lark-cli/connection.ts:200-209 | the bot token, stored before it is returned |
| LarkConnection.LarkConnection.ConfigureApp | extensions/capabilities/lark-cli/connection.ts:129-147 | the new record is proved before it replaces the old one; the user stays only with the same app |
| LarkConnection.LarkConnection.AdoptRecord | extensions/capabilities/lark-cli/connection.ts:149-158 | adoption of a record only where none is stored |
| LarkConnection.LarkConnection.BeginAuthorization | extensions/capabilities/lark-cli/connection.ts:264-288 | a new device authorization cancels the others |
| LarkConnection.LarkConnection.PollAuthorization | extensions/capabilities/lark-cli/connection.ts:297-325 | a poll stores tokens only for the app and the revision its authorization began with |
| LarkConnection.LarkConnection.SignOut | extensions/capabilities/lark-cli/connection.ts:336 | the user goes, the app stays, authorizations are cancelled |
| ExtensionRegistry.FailedUpdateRestoresExactly | apps/server/src/agent-runtime/extension-registry.ts:847-876 | a failed update restores record, file, hooks, owners, registrations, digest and local flag if and only if the package had hooks or its candidate was never activated; the rollback itself never fails |
| ExtensionRegistry.UpdateKeepsConsistent | apps/server/src/agent-runtime/extension-registry.ts:847-876 | a successful update records the candidate with the old installation date and leaves the registry consistent |
| ExtensionRegistry.RegistrationsMatchOwners | apps/server/src/agent-runtime/extension-registry.ts:790-899 | over every run, with updates failing anywhere and packages suspended and resumed with whatever hooks were left of them, each contribution key has one owner, a package that runs, and what is registered is what that package's hooks offer; a key without an owner has nothing registered |
| ExtensionRegistry.HooksMeanContribution | apps/server/src/agent-runtime/extension-registry.ts:790-899 | over every run in which no failed update leaves hooks behind, an installed package with hooks holds its contribution under its own digest |
| ExtensionRegistry.InstalledExactly | apps/server/src/agent-runtime/extension-registry.ts:430-527 | what can be installed runs afterwards and is recorded; what cannot changes nothing; other packages and other keys are untouched |
| ExtensionRegistry.UnrecordedIsUndone | apps/server/src/agent-runtime/extension-registry.ts:514-527 | a user's package that cannot be recorded leaves neither record nor contribution |
| ExtensionRegistry.UninstalledExactly | apps/server/src/agent-runtime/extension-registry.ts:573-593 | uninstalling takes a package out of runtime, registry and file, and touches no other; a bundled one stays |
| ExtensionRegistry.SuspendedExactly | apps/server/src/agent-runtime/extension-registry.ts:228-241 | without developer mode a package is out of the runtime but stays recorded |
| ExtensionRegistry.ResumedExactly | apps/server/src/agent-runtime/extension-registry.ts:242-249 | a resumed package runs with what it loads now, if it loads and its contribution is free |
| ExtensionRegistry.LoadedExactly | apps/server/src/agent-runtime/extension-registry.ts:205-223 | at startup a stored record is listed again, and runs if it is to run, loads, and its contribution is free |
| ExtensionRegistry.BuiltinRegisteredExactly | apps/server/src/agent-runtime/extension-registry.ts:378-386 | a builtin is listed, and has its contribution if that is free and its hooks can be taken |
| ExtensionRegistry.ActivatesExactly | apps/server/src/agent-runtime/extension-registry.ts:799-890 | which hooks the runtime takes, and from whom |
| ExtensionRegistry.StaleHooksRevive | apps/server/src/agent-runtime/extension-registry.ts:850-869 | two failed updates of a package that did not run leave it running with the first candidate's code |
| ExtensionRegistry.RollbackRenewsEpoch | apps/server/src/agent-runtime/driver-registry.ts:27-31 | a rolled back update gives the old factory a new epoch |
| ExtensionRegistry.ReplacementEndsInstances | apps/server/src/agent-runtime/driver-registry.ts:27-68 | registering a factory anew, or removing it, ends every instance made before: whatever is registered later, none is current again |
| ExtensionRegistry.ContributeHolds | apps/server/src/agent-runtime/extension-registry.ts:884-890 | an activation puts what the hooks offer under the package's own key and changes no other |
| ExtensionRegistry.DeactivateHolds | apps/server/src/agent-runtime/extension-registry.ts:892-899 | a deactivation leaves nothing under the package's own key and changes no other |
| ExtensionRegistry.ExtensionRegistry.DeactivateExtension | apps/server/src/agent-runtime/extension-registry.ts:892-899 | only the owner's contribution is taken out |
| ExtensionRegistry.ExtensionRegistry.ActivateHooks | apps/server/src/agent-runtime/extension-registry.ts:819-890 | hooks are registered only when they are valid and the key is free |
| ExtensionRegistry.ExtensionRegistry.ActivateRecord | apps/server/src/agent-runtime/extension-registry.ts:790-797 | hooks, active entry and digest of one record |
| ExtensionRegistry.ExtensionRegistry.ReplaceExtension | apps/server/src/agent-runtime/extension-registry.ts:847-876 | the update with its rollback, step by step |
| CalendarLog.OneReceiptPerRevision | apps/server/src/calendar/store.ts:106-148 | in every reachable store each revision of an event from 1 to the current one has exactly one receipt, of the event's owner, no other revision has one, and the last one is the event |
| CalendarLog.HistoryMakesEvent | apps/server/src/calendar/store.ts:134-144 | the current event is what its accepted requests, in the order of their revisions, make of it; `AcceptedMakes` says what that is |
| CalendarLog.AcceptedExactly | apps/server/src/calendar/store.ts:106-148 | when a new request is accepted, which refusal names which cause, and that a refusal changes nothing |
| CalendarLog.AcceptedMakes | apps/server/src/calendar/store.ts:119-144 | what each accepted action makes of its event, field by field: an update replaces the content, a cancellation or a status change the status alone, and the revision counts up by one |
| CalendarLog.CancelledIsClosed | apps/server/src/calendar/store.ts:140-141 | after an accepted cancellation every new update or cancellation is refused until a request confirms the event again |
| CalendarLog.OperationNamesOneRequest | apps/server/src/calendar/store.ts:130-133 | a request under an operation id that was accepted gets the original answer if it asks for the same, and a conflict otherwise |
| CalendarLog.ResendingChangesNothing | apps/server/src/calendar/store.ts:95-104 | an accepted request sent again, any time later, changes nothing and gets its original answer |
| CalendarLog.OneRequestPerRevision | apps/server/src/calendar/store.ts:117-140 | of the requests that expect one revision of an event at most one is accepted |
| CalendarLog.OwnersApart | apps/server/src/calendar/store.ts:116-139 | a request never changes another owner's event |
| CalendarLog.CalendarStore.Replay | apps/server/src/calendar/store.ts:95-104 | what replay answers is what handling the request would answer, with the store unchanged |
| CalendarLog.CalendarStore.SetStatus | apps/server/src/calendar/store.ts:106-123 | a status change, its receipt, and each refusal |
| CalendarLog.CalendarStore.Mutate | apps/server/src/calendar/store.ts:124-148 | create, update and cancel, their receipts, and each refusal |
| DelegationTimeline.SubscriptionIsExact | apps/server/src/agent-runtime/delegation-timeline-store.ts:105-123 | history and callbacks together are exactly the stored events after the given number, in order, if and only if that number was not beyond the counter or nothing up to it has been appended since |
| DelegationTimeline.NumberedExactly | apps/server/src/agent-runtime/delegation-timeline-store.ts:77-98 | over every run the stored events are numbered 1, 2, 3, … if and only if no event is stored while a failed write has lost a number and no restart has come since |
| DelegationTimeline.StepNumbers | apps/server/src/agent-runtime/delegation-timeline-store.ts:84-94 | which single operation breaks the numbering, and which leaves a number lost |
| DelegationTimeline.AppendExactly | apps/server/src/agent-runtime/delegation-timeline-store.ts:77-98 | a written event stands at the end with the next number and goes to every subscriber; one that is not written is seen by nobody and takes the number |
| DelegationTimeline.SubscriptionsAreApart | apps/server/src/agent-runtime/delegation-timeline-store.ts:105-123 | joining and leaving touch one subscriber only |
| DelegationTimeline.DelegationTimelineStore.ReadUnlocked | apps/server/src/agent-runtime/delegation-timeline-store.ts:56-75 | the stored events after a number |
| DelegationTimeline.DelegationTimelineStore.AppendActivity | apps/server/src/agent-runtime/delegation-timeline-store.ts:77-98 | number, line and one callback for each listener |
| DelegationTimeline.DelegationTimelineStore.SubscribeFrom | apps/server/src/agent-runtime/delegation-timeline-store.ts:105-123 | history and subscription with nothing in between |
| TokenBatching.BatchingRendersSegments | apps/server/src/agent-runtime/puddingclaw-driver.ts:141-197 | for every stream ended by a flush the output is the rendering of a cut of the stream into single events and token runs of one item: nothing lost, moved or joined across a boundary, and each batch has its run's count, ids and whole text, cut at the limit |
| TokenBatching.CutIsUnique | apps/server/src/agent-runtime/puddingclaw-driver.ts:177-193 | a stream has exactly one such cut, so the output is determined |
| TokenBatching.CountsAddUp | apps/server/src/agent-runtime/puddingclaw-driver.ts:141-197 | batch counts add up to the token events, and all other activities come out unchanged and in order |
| TokenBatching.ContentsConcatenate | apps/server/src/agent-runtime/puddingclaw-driver.ts:183 | below the limit the batch contents concatenate to the token contents |
| TokenBatching.TruncateAbsorbs | apps/server/src/agent-runtime/puddingclaw-driver.ts:221-223 | cutting after every token cuts the same text as cutting once |
| TokenBatching.TruncateExactly | apps/server/src/agent-runtime/puddingclaw-driver.ts:221-223 | text within the limit stays whole, longer text keeps its first part and a mark |
| TokenBatching.AdvanceAgrees | apps/server/src/agent-runtime/puddingclaw-driver.ts:178-194 | after each event the observer holds exactly the rendering of the finished segments and the count, ids and cut text of the open run |
| TokenBatching.ActivityObserver.ObserveStream | apps/server/src/agent-runtime/puddingclaw-driver.ts:141-197 | a whole stream through the observer emits the rendering of its cut |

## Left out

- Git commands, checkout materialisation, symbolic links, directory entries and ignore rules: a workspace is a flat map from path to hash and mode, and HEAD is an opaque value.
- Path strings: a root is the list of its components, and absolute-path normalisation is taken as done.
- WorkspacePromotion: a check and the operation that follows it in a rollback step or when a backup is given back are one step, so a rival that arrives in between is not modelled. Within a rollback every removal and rename succeeds; the source swallows their errors.
- RollbackAmidRivals: stands beside the whole promotion; the windows of `Promote` itself end before its rollback begins.
- WorkspaceLeases: `capture` has no effect on leases and is not an operation; `promote` enters only through what it does to its scope.
- BackendLease: a directory listing is one step; the text of a lease file and the signal-0 probe are a liveness answer.
- AcceptanceLedger: the flush of the history outbox, front-matter parsing and the file scan; the order in which tables are enumerated is an input.
- DelegationLifecycle: the fields that identify a run and its contract, and its handles, are one value each; work items, delivery, session forks, remote reattachment and the stale-session retry.
- InteractionRounds: expiry, platform-policy admission and provider state; delegation transitions around a respond call are a free choice of the environment.
- LarkConnection: the pacing of device polls (section 3.5 of RFC 8628), scopes, encryption of the record, the length limit of a secret, and the status view.
- ExtensionRegistry: manifest validation, module loading, package staging, drift marks and load-error texts; developer mode is modelled one record at a time. A stored record under the id of a builtin, which only a release that adds a builtin can meet, is not modelled.
- CalendarLog: normalising a calendar input, with its date and time-zone rules, is an input that is accepted or refused.
- DelegationTimeline: torn lines and redaction; sorting is left out because the file is in order.
- TokenBatching: the projection of raw lines to activities.
- HTTP routes, spawning, the desktop shell, the command line and the user interface.
