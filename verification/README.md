# Crash-tolerant run protocols: a Dafny model

This project models the file protocols of the subagent server and proves what they keep.  Each
protocol is a set of single file operations, with the death of a process possible between any two,
or a class whose methods are the uninterrupted segments of the program.

`dafny verify dfyconfig.toml` checks everything.

## The modules

| file | what it models |
|---|---|
| `Session.dfy` | the write-ahead commit of named sessions, its recovery, and the history of turns it refines to |
| `Admission.dfy` | client-start admission, containment, launch guard and prepared candidates of one token |
| `Capacity.dfy` | leases, tickets and promotion over many servers, and the liveness evidence they give |
| `QueuePump.dfy` | the queue of one owner and the pump that serves it |
| `OwnerChain.dfy` | the in-process promise chain that owns a run |
| `RunEvents.dfy` | the bounded window of public events |
| `RunClaim.dfy` | the guarded transition of the durable run claim, and the owner that writes it |
| `Reconcile.dfy` | two-phase owner-loss settlement of a tree of runs |
| `PairedOutputs.dfy` | ownership of the strict primary/packet output pair |
| `InputDelivery.dfy` | answers to a running child, the mailbox of settlements, the child's end |
| `AuthoringScope.dfy` | capture and terminal reinspection of an authored tree |
| `CanonicalJson.dfy` | the canonical JSON printers |
| `Transcript.dfy` | the streaming transcript and the batch form of the same text |
| `FailureStorage.dfy` | the byte budget of the failure ledger |
| `Ordering.dfy`, `Outcomes.dfy` | strict total orders and sorting; option, result and the fate of a file operation |

## Assumptions

- SHA-256 has no collisions: a digest is the content it stands for.
- "Definitely gone" is true and permanent; process ids are not reused.
- The on-disk locks exclude live holders and are released by death.  The program's removal of stale
  locks looks first and unlinks after, so this is assumed and not proved.
- A ledger append is one step.  A rename, an exclusive link and a whole-file read are one step each.
- `max_active_children` is positive and the same in all servers; a ticket is released only before its
  run waits or after the wait has settled.
- The child keeps its session file inside its attempt workspace; what it leaves there is arbitrary.
- The authored tree does not change while it is inspected.
- Reading the file of a dead server and removing it are one step, and so are the check of an orphan's
  owner and the removal of the orphan.
- A living owner holds its run's capacity until the run is terminal; so in `PairedOutputs.Follows`,
  which is about runs not bound to a client start, an owner lives exactly while it holds.
- A promotion that fails or is cancelled can return its lease, and the temporary file of an exclusive
  link can be removed: the program leaks the lease where one of these fails.
- Bytes of the failure ledger are valid UTF-8: the program reads them as text, which would replace
  others.
- What a line of output projects to, which line is a complete record and whether a record passes the
  field-by-field validator are arbitrary.

## Where the program does less than it is meant to

Each is a lemma or a method with a concrete run, beside the exact condition under which the program
does what it is meant to.

- A prepared candidate can be removed although its token is bound: reconciliation reads "no record"
  before it asks whether the owner is gone (`Admission.OrphanRace`; exactly when, in
  `Admission.NotDurableExactly`).
- The first liveness check can be fooled by a promotion (`Capacity.FirstCheckIsFooled`; exactly when,
  in `Capacity.FooledExactly`); the second cannot (`Capacity.NoFalseOwnerLoss`).  The cleanup of
  pending outputs runs between the two, so a fooled first check can delete outputs of a living owner
  (`PairedOutputs.FooledCleanupDeletesReferenced`; exactly when, in `PairedOutputs.LostExactly`).
  It never orphans a file (`PairedOutputs.PairIsCovered`).
- `cancellation_requested` must persist in the claim but is no anchor of the event window, so later
  output can make settlement impossible (`RunClaim.TalkingAfterCancellation`; exactly when, in
  `RunClaim.TalkedAway`).  The same follows when an input event lists a request again after the claim
  has closed it and before the mailbox has (`RunClaim.RelistingAfterCancellation`; exactly when, in
  `RunClaim.RelistedInputsExactly`).  `RunClaim.RunTask.SettleRunClaim` has the condition of both.
- The receipt of the system skill is not among the receipts the transition guards
  (`RunClaim.SystemSkillIsUnguarded`); the owner writes it once like the others, and the validator
  asks for it while evidence of the prompt is retained (`RunClaim.EvidenceAlways`).
- The streaming transcript drops a marker that precedes the first structured event, which the batch
  function of the same program keeps (`Transcript.StreamIsBatchExactly`).

## Model

| member | source | states |
|---|---|---|
| Session.ApplyTwice | src/session.ts:639-668 | From any disk at all, applying a commit twice equals applying it once. |
| Session.RecoveryCompletes | src/session.ts:639-668 | From every state a crash can leave behind, one undisturbed recovery succeeds and ends in exactly the state after the pending turn; it never refuses. |
| Session.PublishedView | src/session.ts:615-637 | Publication never refuses an in-flight commit and changes the canonical file alone, to the content of the pending turn. |
| Session.LedgerAppends | src/session.ts:587-596 | The idempotent append of an in-flight commit ends in the ledger after the turn, whether or not the record was there. |
| Session.FindMisses | src/session.ts:587-596 | A run id that no record carries is not found, so its record is appended. |
| Session.PreparedIsInFlight | src/session.ts:670-694 | Writing the pending commit is the point where a turn enters the history. |
| Session.NextTurnFits | src/session.ts:904-926 | A new record and manifest built from what was read continue the numbered history. |
| Session.AttemptContinues | src/session.ts:865-926 | The record and manifest of an accepted attempt continue the history and carry the request: its output, times, nonce, key, directory and skill, and what the first turn fixed. |
| Session.ReconcileIsIdentity | src/session.ts:461-491 | At rest the manifest agrees with the ledger, sequences are 1..n, and reconciliation is the identity. |
| Session.ReconcileCatchesUp | src/session.ts:461-491 | From the manifest of any earlier turn, reconciliation with the ledger arrives at the manifest of the last one. |
| Session.ReconcileRefuses | src/session.ts:461-491 | It refuses exactly a ledger behind its manifest, or one that ends in no turn of this session. |
| Session.QuiescentLedger | src/session.ts:423-453 | At rest the ledger is the list of committed turns in order, `run_count` is their number, and each record is found by its id. |
| Session.SessionDirectory.PublishAttemptFile | src/session.ts:615-637 | Refines the publication function, and every crash or failed file operation inside it leaves an in-flight state. |
| Session.SessionDirectory.AppendRunRecordIdempotent | src/session.ts:587-596 | Appends once or not at all; a different record under the same id is refused and nothing changes. |
| Session.SessionDirectory.MoveStores | src/session.ts:639-664 | File, ledger and manifest move in order; at every stop the session is in flight, and at the end all three show the turn. |
| Session.SessionDirectory.ClearCommit | src/session.ts:665-668 | Staged copy, workspace and pending commit go in an order that keeps a pending commit recoverable to the last step. |
| Session.SessionDirectory.ApplyPendingCommit | src/session.ts:639-668 | Refines `Apply` when it completes, and leaves a recoverable state wherever it dies or fails. |
| Session.SessionDirectory.CommitAttemptSession | src/session.ts:670-694 | The history gains exactly this turn, with the content of the attempt file, or nothing; a missing attempt file is refused without effect. |
| Session.SessionDirectory.Recover | src/session.ts:778-785 | Recovery completes into a session at rest, or an operation of it failed or died and the session can be recovered again. |
| Session.SessionDirectory.ReconcileManifestWithLedger | src/session.ts:461-491 | Writes the reconciled manifest or refuses; for a session at rest it changes nothing. |
| Session.SessionDirectory.PrepareAttemptSession | src/session.ts:696-718 | The attempt starts from the committed content and the observed session is untouched. |
| Session.SessionDirectory.CleanUp | src/session.ts:1007-1025 | A workspace that a pending commit may still need is left alone; any other is gone, where nothing strikes. |
| Session.SessionDirectory.RunAttempt | src/session.ts:792-1006 | A turn commits exactly when it is accepted and has a session file. The committed turn carries this request, and the content its child left of what was committed before; a refused one leaves exactly its record among the attempts. |
| Session.SessionDirectory.RunSubagentSession | src/session.ts:721-1029 | At every exit the history has gained this request's turn or nothing, and the attempts its refused record or nothing. Each refusal before the child runs has its exact condition and changes nothing. |
| Session.SessionDirectory.TurnThenRecoveries | src/session.ts:778-785 | A turn that dies anywhere, then any number of recoveries that die anywhere, then one that completes: the session is observed exactly as before or exactly as after this request's turn. |
| Session.SessionDirectory.ServeRequests | src/session.ts:721-1029 | Over any sequence of successful, failed and crashed turns the history only grows, by at most one turn a request, each new turn is that of a request, and it ends at rest once recovered. |
| Admission.InvStep | src/clientStartAdmission.ts:347-490 | Every step of every call, and every death between two file operations, keeps the protocol invariant. |
| Admission.RecordStep | src/clientStartAdmission.ts:318-336 | A record is written once and then only ever marked cancelled, although replacements are built from an earlier read. |
| Admission.RecordRun | src/clientStartAdmission.ts:347-463 | The same between any two moments of any run. |
| Admission.FenceExcludesBinding | src/clientStartAdmission.ts:410-463 | A fence and a binding never both occur in the history of one token. |
| Admission.OneRunPerToken | src/clientStartAdmission.ts:347-408 | Two start requests of one token, begun and answered at any moments, whose claims did not fail after the rename: equal requests get the same answer, and beside a resolved one a different request is a conflict. |
| Admission.StartAnswersRecord | src/clientStartAdmission.ts:347-408 | The answer to a start request that did not fail is the one the record gives, then and ever after: its binding, a conflict, or the refusal of a fence. |
| Admission.GivesUpExactly | src/runTask.ts:4731-4746 | A start request gives up if and only if its own claim failed after the rename. |
| Admission.ContainmentAnswersRecord | src/clientStartAdmission.ts:410-463 | The answer to a containment request is the one the record gives, then and ever after: fenced, or the bound run, cancelled. |
| Admission.AnswersAgree | src/clientStartAdmission.ts:347-463 | Any two answers of one token, containment included, agree on the run and exclude a fence. |
| Admission.ServesRun | src/runTask.ts:4671-4758 | The request a call began with goes through all its states into its answer. |
| Admission.SpawnNeedsLiveBinding | src/clientStartAdmission.ts:465-490 | No child is spawned for an absent, fenced or cancelled record. |
| Admission.GuardDecides | src/clientStartAdmission.ts:465-490 | The guard of a bound run lets the launch pass exactly while the binding is not cancelled. |
| Admission.BoundIsCancelled | src/clientStartAdmission.ts:410-463 | After a "bound" answer the binding stays cancelled for ever. |
| Admission.NoSpawnAfterBound | src/runTask.ts:4483-4507 | After a "bound" answer no spawn of any run is even enabled, and the set of spawned runs stays as it was. |
| Admission.NoSpawnWithFence | src/runTask.ts:4483-4507 | With a "fenced" answer no child was or ever will be spawned, at any moment of the run. |
| Admission.NotDurableExactly | src/runTask.ts:999-1059 | At every moment of every run: the binding has neither candidate nor run record if and only if its run was never promoted or recovered, and either reconciliation read "no record", the run was bound, and the candidate was then removed, or a claim failed after its rename and its candidate was discarded. |
| Admission.UnbackedHistory | src/runTask.ts:999-1022 | Every loss of a candidate of a bound run has one of these two histories. |
| Admission.LostHistory | src/runTask.ts:999-1022 | And after either of them the bound run never has a candidate again. |
| Admission.RecordedExactly | src/runTask.ts:1036-1059 | A run has a record exactly when a promotion or a recovery linked it. |
| Admission.CarefulStep | src/runTask.ts:999-1059 | If no claim fails after its rename and an orphan's owner was gone before the record was read, evidence is kept. |
| Admission.CarefulRunsAreDurable | src/runTask.ts:999-1059 | And so over every such run. |
| Admission.OrphanRace | src/runTask.ts:1016-1022 | A run without any I/O error in which reconciliation removes the candidate of a binding: it reads "no record" first and asks only then whether the owner is gone. |
| Admission.AdmissionFile.ClaimClientStartAdmission | src/clientStartAdmission.ts:347-384 | Binds an absent token, succeeds exactly for the bound request, and names the reason of every refusal. |
| Admission.AdmissionFile.RequestClientStartContainment | src/clientStartAdmission.ts:410-463 | Fences an unbound token and cancels a bound one, idempotently. |
| Admission.AdmissionFile.GuardLaunch | src/clientStartAdmission.ts:465-490 | Lets a launch pass exactly for the uncancelled binding of this request and run, and names the reason of every refusal. |
| Admission.ClaimThenLaunch | src/clientStartAdmission.ts:347-490 | A successful claim lets its run launch exactly while nothing has contained the token. |
| Admission.ContainedTokenNeverLaunches | src/clientStartAdmission.ts:410-490 | After containment no sequence of claims and containments lets any launch pass. |
| Capacity.InvStep | src/activeChildLease.ts:358-465 | Every file operation of every server, and every death, keeps the allocator's invariant. |
| Capacity.CapacityIsBounded | src/activeChildLease.ts:425-465 | In every reachable state at most the limit of leases and at most the limit of tickets exist. |
| Capacity.LockIsHeld | src/activeChildLease.ts:425-465 | One call at a time holds the capacity lock, and the lock is never left behind by a call that ended or died. |
| Capacity.HeldIsOnDisk | src/activeChildLease.ts:358-390 | A run held by a live owner has its ticket or its lease on disk at every moment, also in the middle of its promotion. |
| Capacity.NothingEverLeaks | src/activeChildLease.ts:376-390 | Every lease or ticket of a live server belongs to a run that holds it: a failed or cancelled promotion returns its lease, where the return itself succeeds. |
| Capacity.StepAccounts | src/activeChildLease.ts:247-297 | What one step does to one lease, one ticket and one run that was let go. |
| Capacity.NoFalseOwnerLoss | src/runTask.ts:4141-4306 | No run is ever marked `restart_drift` while its live owner holds it, at the write or at any later moment. |
| Capacity.DeadIsDrifted | src/runTask.ts:4141-4306 | The other half: a reconciliation that begins after the death of the owner, and lives to its end, ends in nothing but the loss of the run. |
| Capacity.SuspicionGoesOn | src/activeChildLease.ts:467-505 | And it always has a next step until then. |
| Capacity.FilesAreOwned | src/activeChildLease.ts:238-275 | Every lease and ticket is of the owner of its run. |
| Capacity.GrantedExactly | src/activeChildLease.ts:425-465 | Room is granted exactly when fewer leases than the limit were listed and not read as those of dead servers; otherwise the run waits on, is queued or is refused. |
| Capacity.QueuedExactly | src/activeChildLease.ts:425-465 | A run is queued exactly when fewer tickets than the limit were listed and not read as those of dead servers. |
| Capacity.FooledExactly | src/activeChildLease.ts:467-505 | The first check of a held run says gone if and only if, after it listed the leases and before it read the ticket, that run's promotion published its lease and removed its ticket. |
| Capacity.FirstRoundHistory | src/activeChildLease.ts:467-505 | Every first check began with a listing, has lasted since, and has missed a lease only to a promotion after it. |
| Capacity.OnlyPromotionFools | src/activeChildLease.ts:467-505 | The check that finds neither lease nor ticket of a held run was overtaken. |
| Capacity.PromotionFools | src/activeChildLease.ts:376-390 | After that overtaking a run that is still held has its lease and no ticket. |
| Capacity.StepPasses | src/activeChildLease.ts:358-390 | How one step of anyone changes what a run holds: a lease comes from a publication, and without a ticket only from its removal. |
| Capacity.FirstCheckIsFooled | src/activeChildLease.ts:467-505 | A reachable state in which the first check reports a held run as gone. |
| Capacity.BackToTicket | src/activeChildLease.ts:362-375 | A promotion that finds no room or is cancelled before its lease leaves the run waiting with its ticket on disk. |
| Capacity.KeepTicketKeep | src/activeChildLease.ts:379-384 | A ticket that cannot be removed fails the promotion: its lease is gone from disk and the run waits with its ticket. |
| Capacity.SettleKeep | src/activeChildLease.ts:385-389 | A promotion cancelled after its lease returns the lease and holds nothing; otherwise the run holds exactly that lease. |
| QueuePump.HeadExists | src/activeChildLease.ts:323-327 | A queue that is not empty has a least sequence number. |
| QueuePump.AppendKeepsHead | src/activeChildLease.ts:447-462 | A newcomer is never the head of a queue that was not empty. |
| QueuePump.OwnerQueue.PumpSegment | src/activeChildLease.ts:392-402 | From the top of its loop to its next await: a live ready head goes to promotion and nothing changes, a cancelled one leaves the queue rejected, and without a ready head the pump ends. |
| QueuePump.OwnerQueue.WakeOwnerPump | src/activeChildLease.ts:339-356 | A wake of a running pump is remembered and changes nothing else; otherwise it runs a segment of the pump. |
| QueuePump.OwnerQueue.PumpEnds | src/activeChildLease.ts:329-356 | An ending pump that was woken meanwhile runs on; otherwise it stops and leaves no ready head without a timer or a release. |
| QueuePump.OwnerQueue.TimerFires | src/activeChildLease.ts:333-336 | A timer runs a segment of the pump, or is remembered by a running one. |
| QueuePump.OwnerQueue.Enqueue | src/activeChildLease.ts:447-462 | Queues last, not ready, under the next sequence number. |
| QueuePump.OwnerQueue.WaitForLease | src/activeChildLease.ts:303-319 | Refused exactly for a run that is not queued or already waits; otherwise the run is ready and the pump runs. |
| QueuePump.OwnerQueue.Cancel | src/activeChildLease.ts:313-317 | A cancellation is noted and wakes the pump, which rejects the run once it is the head. |
| QueuePump.OwnerQueue.BeginTicketRelease | src/activeChildLease.ts:277-297 | Takes the run out at once, rejected; the release in progress will wake the pump. |
| QueuePump.OwnerQueue.BeginLeaseRelease | src/activeChildLease.ts:255-271 | A lease release in progress is counted, so it will wake the pump. |
| QueuePump.OwnerQueue.EndRelease | src/activeChildLease.ts:247-297 | Either release ends by waking the pump. |
| QueuePump.OwnerQueue.ReleasingDone | src/activeChildLease.ts:397-399 | After its own release of a cancelled ticket the pump wakes itself and goes on: no ready head is left unserved and nothing is granted twice. |
| QueuePump.OwnerQueue.PromotionGranted | src/activeChildLease.ts:404-415 | The lease goes to the run with the least sequence number of all queued, which is answered with it; grants are strictly increasing, and the pump goes on with the rest. |
| QueuePump.OwnerQueue.PromotionPostponed | src/activeChildLease.ts:405-417 | Without room the head stays and a timer is set; a head cancelled meanwhile is rejected and released. |
| QueuePump.OwnerQueue.PromotionBroken | src/activeChildLease.ts:418-421 | A head whose ticket is lost is rejected and the pump goes on with the rest. |
| OwnerChain.ResolvedExactly | src/runTask.ts:806-820 | A link of the chain resolves exactly when its call and all earlier ones have released. |
| OwnerChain.EntersExactly | src/runTask.ts:806-820 | A call may enter exactly when all earlier ones have released. |
| OwnerChain.MutualExclusion | src/runTask.ts:806-820 | At most one call runs, and it is the first that has not released. |
| OwnerChain.NeverStalls | src/runTask.ts:806-820 | The first call that has not released runs or may enter. |
| OwnerChain.RunOwner.Arrive | src/runTask.ts:806-812 | A call waits for the entry it finds and becomes the entry. |
| OwnerChain.RunOwner.Enter | src/runTask.ts:812-814 | A call enters only after every earlier one has released. |
| OwnerChain.RunOwner.Leave | src/runTask.ts:815-819 | A call that leaves deletes the map entry exactly when nobody queued behind it. |
| RunEvents.ProjectionIsWindow | src/runEvents.ts:47-60 | Find, filter, slice and identity sets drop the oldest unanchored events and nothing else. |
| RunEvents.AnchorsAreAnchored | src/runEvents.ts:49-53 | The anchors are the first `run_started` and the first two `child_spawned`. |
| RunEvents.RetainedExactly | src/runEvents.ts:54-59 | A position is retained exactly when it is an anchor or not among the excess. |
| RunEvents.ProjectionStep | src/runTask.ts:2557-2568 | Projecting the kept events and the next one is projecting the whole history. |
| RunEvents.IncrementalIsBatch | src/runTask.ts:2557-2568 | Folding the projection one event at a time equals projecting the full history once. |
| RunEvents.ProjectionBounded | src/runEvents.ts:47-64 | At most 25 events, and projecting again changes nothing. |
| RunEvents.KeepsInOrder | src/runEvents.ts:59-59 | The result is the history at its kept positions. |
| RunEvents.FilterOrdered | src/runEvents.ts:54-59 | Those positions increase. |
| RunEvents.KeptExactly | src/runEvents.ts:47-60 | Exactly which event of a long history is kept. |
| RunEvents.StaysExactly | src/runEvents.ts:47-60 | An event that is no anchor stays exactly as long as it, the events after it and the anchors before it are at most 25. |
| RunEvents.TailStays | src/runEvents.ts:54-59 | The last 22 events are always kept, as they are. |
| RunClaim.TransitionIsLater | src/runTask.ts:822-896 | An accepted transition keeps identity, child-started, stable events, the three guarded receipts, lineage, settled inputs and a terminal record. |
| RunClaim.LaterTransitive | src/runTask.ts:822-896 | What persists over two writes persists over both, hint suffixes included. |
| RunClaim.ClaimsOnlyGrow | src/runTask.ts:909-961 | Along every sequence of accepted and refused writes by anyone, all of it persists, and so do the declarations. |
| RunClaim.EvidenceAlways | src/runTask.ts:672-720 | Along every sequence of writes by anyone: in the record of a launched run retained evidence of the prompt implies every declared receipt, the unguarded one of the system skill included, and in any other record the child has not started. |
| RunClaim.FirstTerminalIsFinal | src/runTask.ts:871-895 | The first terminal record is final but for the suffixes of a timeout hint and a launch observed later. |
| RunClaim.LateSettlement | src/runTask.ts:909-961 | A settlement after another one changes nothing, and is answered exactly over a restart drift. |
| RunClaim.SystemSkillIsUnguarded | src/runTask.ts:841-852 | The receipt of the system skill is not among the guarded ones. |
| RunClaim.ClaimFile.WriteRunClaimOwned | src/runTask.ts:909-961 | Refines the write: restart drift answers a late terminal write, every objection leaves the record as it was. |
| RunClaim.RunTask.Register | src/runTask.ts:2768-2799 | The start and its markers enter the window, and the record is made durable if there is none; one that is there must accept the view and stays as it is. |
| RunClaim.RunTask.AcceptReceipt | src/runTask.ts:3754-3838 | A receipt is written once: an equal one is ignored, a different one is refused, an accepted one is durable before it is published, and nothing else of the view changes. |
| RunClaim.RunTask.ObserveLifecycle | src/runTask.ts:3628-3665 | A lifecycle marker is accepted exactly behind its receipts; prompt evidence implies every receipt the declarations require. |
| RunClaim.CompleteIsEveryReceipt | src/runTask.ts:3559-3565 | The completeness test covers every required receipt. |
| RunClaim.RunTask.ObserveOutput | src/runTask.ts:3666-3712 | Output appends to the window and touches nothing durable. |
| RunClaim.RunTask.ObserveInputEvent | src/runTask.ts:3682-3691 | An input event replaces the owner's requests by what the mailbox lists. |
| RunClaim.RunTask.CommitChildSpawn | src/runTask.ts:3717-3752 | The child counts as started exactly with its durable spawn event and the requests listed then, once, and only after a grant. |
| RunClaim.RunTask.GrantRunClaim | src/runTask.ts:3840-3869 | The execution grant is durable before it is published. |
| RunClaim.RunTask.AcceptRunCancellation | src/runTask.ts:5144-5177 | Accepting a cancellation records it and closes the pending requests, or changes nothing. |
| RunClaim.RunTask.SettleRunClaim | src/runTask.ts:3302-3380 | An active record accepts a well-formed settlement if and only if every stable event is still in the window and every settled input is still the owner's. What is written is this end: its status and fields, the closed requests, the owner's lineage and receipts, and the window with the packet and terminal events last. A terminal record is preserved. |
| RunClaim.SettledEvents | src/runTask.ts:3302-3380 | The terminal record of an end, field by field, and its canonical events. |
| RunClaim.SettlementExactly | src/runTask.ts:3302-3380 | The same condition, of the transition check itself. |
| RunClaim.LaterWindowInvents | src/runTask.ts:2508-2568 | An event that has left the window never comes back. |
| RunClaim.TalkingAfterCancellation | src/runTask.ts:3628-3715 | Whatever was told before: once the accepted cancellation, the requests it closed, the child's lines, the packet event and the terminal event no longer fit beside the anchors, every settlement fails and the run stays active. |
| RunClaim.TalkedAway | src/runEvents.ts:47-60 | Exactly when the accepted cancellation is in the window at its acceptance, and exactly when it still is at the end. |
| RunClaim.RelistingAfterCancellation | src/runTask.ts:5144-5204 | An input event between the acceptance of a cancellation and the closing of the mailbox makes a settlement at any other time fail; after the closing the listing is what was recorded and no settled input stands against a settlement. |
| RunClaim.RelistedInputsExactly | src/inputMailbox.ts:199-251 | For any mailbox listed last: the closed requests survive a settlement if and only if each is closed there at the time of the acceptance, or is pending and the run ends at that very time. |
| RunClaim.CloseListsRecorded | src/runTask.ts:5186-5196 | Closing the mailbox at the time of the acceptance lists exactly what the acceptance recorded. |
| Reconcile.ChainIsBounded | src/recursiveControl.ts:360-371 | Recorded lineage never goes deeper than the limit. |
| Reconcile.TerminalIsFinal | src/runTask.ts:822-896 | Over any evolution of the records a terminal one stays as it is. |
| Reconcile.DriftedForever | src/runTask.ts:4167-4306 | A drifted run keeps its descendants, each with its terminal record, for ever. |
| Reconcile.SettledFits | src/runTask.ts:4251-4284 | Settling over terminal descendants keeps the whole store bottom-up settled. |
| Reconcile.RunStore.RecordDescendant | src/runTask.ts:2801-2826 | Recording a descendant keeps lineage strictly deeper and leaves terminal ancestors alone. |
| Reconcile.RunStore.Delegate | src/runTask.ts:2828-2904 | Refused exactly at the depth limit; otherwise the child is one deeper, every resident active ancestor lists it last, and no other record changes. |
| Reconcile.RunStore.SettleOwnerLoss | src/runTask.ts:4251-4284 | May only be made behind the answer under the claim lock that the owner is gone, and over terminal descendants. |
| Reconcile.RunStore.InspectDescendants | src/runTask.ts:4202-4209 | Those reported as ended are terminal; where nothing opposes it, all of them are. |
| Reconcile.RunStore.PhaseOne | src/runTask.ts:4169-4200 | Gives the recorded status of a terminal run; for an active one the liveness answer decides between its status, a refusal and the list of descendants to ask for. |
| Reconcile.RunStore.PhaseTwo | src/runTask.ts:4222-4286 | Under the claim lock, whatever interferes before: a run is settled exactly when it is active, its owner is answered to be gone and the unchanged list of descendants is terminal, and nothing else is written. A living owner keeps its run, and the answer is the recorded status. |
| Reconcile.RunStore.GetPersistedRunTask | src/runTask.ts:4167-4306 | Answers with the recorded status, settles a run only if its owner was answered to be gone under the claim lock, gives up only after eight obstructed attempts, and where nothing opposes it settles the run and its whole subtree. |
| Reconcile.RunStore.ReconcileOnce | src/runTask.ts:4168-4300 | One attempt of both phases; asking for descendants ends because they are deeper. |
| Reconcile.RunStore.GetRunTask | src/runTask.ts:4369-4384 | A resident run answers from memory and nothing changes; any other is reconciled. |
| PairedOutputs.InvStep | src/runTask.ts:3081-3103 | Every step of owner, reconciliations and cleanups, fooled or not, and every death, keeps the ownership invariant. |
| PairedOutputs.PairIsCovered | src/output.ts:565-570 | In every run, also with fooled first checks, each existing file of an accepted pair is named by the record: nothing is orphaned. |
| PairedOutputs.LossSettles | src/runTask.ts:4222-4284 | An owner's loss is written exactly over the ownership seen, of an active run whose owner is gone, and gives up the pair only when nothing is left of it. |
| PairedOutputs.OwnerCanWithdraw | src/runTask.ts:3081-3103 | From anywhere before it settles, an owner can still withdraw and leave neither file nor ownership. |
| PairedOutputs.DeathIsRecovered | src/runTask.ts:4167-4284 | An owner may die anywhere before it settles: its pair can still be removed and its loss settled. |
| PairedOutputs.LeftoverIsRemoved | src/output.ts:565-578 | What a terminal record still owns, a startup cleanup can remove and give up. |
| PairedOutputs.PairIsSafe | src/runTask.ts:4210-4284 | With no fooled first check: each existing file of an accepted pair is named by the record, and no referenced file is removed. |
| PairedOutputs.ClientStartPairIsSafe | src/runTask.ts:4141-4165 | Runs bound to a client start are safe without that condition. |
| PairedOutputs.FooledCleanupDeletesReferenced | src/runTask.ts:4210-4220 | A reachable state in which a referenced output was deleted by an unlocked phase-one cleanup. |
| PairedOutputs.LostExactly | src/runTask.ts:4210-4220 | At every moment of every run: a referenced file is missing if and only if a cleanup whose first check was fooled removed a published output and the owner settled with its references. |
| PairedOutputs.CountedOnExists | src/output.ts:565-578 | Without such a removal every output that the owner published or the record references exists. |
| PairedOutputs.StruckIsLost | src/output.ts:565-578 | After it the output never comes back. |
| PairedOutputs.FooledByPromotion | src/activeChildLease.ts:467-505 | The first check of a reconciliation is fooled if and only if the promotion of the held run overtakes its probe of the capacity files. |
| PairedOutputs.SafeUnlessOvertaken | src/runTask.ts:4169-4220 | A pair whose first checks no promotion overtakes is safe throughout. |
| AuthoringScope.ListingOrderIsIrrelevant | src/authoringEffectScope.ts:276-277 | However a directory is listed, the visits take its children in one order. |
| AuthoringScope.WalkIsTheTree | src/authoringEffectScope.ts:261-306 | A capture visits each path of the tree and nothing else. |
| AuthoringScope.Capture.Enter | src/authoringEffectScope.ts:261-306 | One visit succeeds exactly when the visits so far and this one are regular, singly linked and within every limit. |
| AuthoringScope.Capture.VisitTree | src/authoringEffectScope.ts:261-306 | The recursive visit with shared counters, exactly. |
| AuthoringScope.CaptureTree | src/authoringEffectScope.ts:253-309 | Success and result, the entries by relative path, are functions of the tree alone. |
| AuthoringScope.CapturedInOrder | src/authoringEffectScope.ts:308-308 | The result has the entries of the visits, each as often, ascending by relative path. |
| AuthoringScope.CapturedExactly | src/authoringEffectScope.ts:253-309 | An entry is captured exactly when the tree has it at its path. |
| AuthoringScope.InspectOutputs | src/authoringEffectScope.ts:429-434 | Holds exactly when every output is a bounded single-link regular file and their bytes fit. |
| AuthoringScope.Closure.VisitTree | src/authoringEffectScope.ts:442-461 | The inspection of the state subtree, exactly. |
| AuthoringScope.InspectClosure | src/authoringEffectScope.ts:406-462 | The writable closure, exactly. |
| AuthoringScope.AssertTerminal | src/authoringEffectScope.ts:464-492 | The entry-by-entry comparison decides the statement about both trees. |
| AuthoringScope.ExactOutputsReinspection | src/authoringEffectScope.ts:464-492 | Exact outputs, for any tree reinspected: it succeeds if and only if the limits hold, the initial entries are unchanged, the paths are exactly the initial ones, the bounded outputs and their ancestors, and no file has a second link. |
| AuthoringScope.StateSubtreeReinspection | src/authoringEffectScope.ts:464-492 | Fixed subtree, for any tree reinspected: if and only if the limits hold, everything outside is unchanged but for new directories leading there, the subtree is closed, and no file has a second link. |
| AuthoringScope.AcceptableTree | src/authoringEffectScope.ts:261-306 | A capture accepts a tree if and only if the limits hold and it has directories and single-link regular files only. |
| AuthoringScope.OnlyAcceptedOutputsClose | src/authoringEffectScope.ts:103-134 | Distinct outputs that overlap could never all be closed. |
| CanonicalJson.QuoteRoundTrip | src/recursiveControl.ts:40-42 | A quoted string is read back by section 7 of RFC 8259, lone surrogates included. |
| CanonicalJson.QuoteIsExact | src/recursiveControl.ts:37-42 | A quoted string ends where it ends and tells which string it quotes. |
| CanonicalJson.EquivalentPrintsEqual | src/recursiveControl.ts:30-43 | Values equal up to key order at any depth print the same. |
| CanonicalJson.PrintIsExact | src/recursiveControl.ts:30-43 | Equal texts, also inside larger ones, come from values equal up to key order. |
| CanonicalJson.PrintDecidesEquivalence | src/recursiveControl.ts:30-43 | Both directions, for any strict total order of keys. |
| CanonicalJson.UnitLessIsStrictTotal | src/recursiveControl.ts:36-36 | Comparison by UTF-16 code unit is a strict total order. |
| CanonicalJson.ObjectLessIsStrictTotal | src/clientStartAdmission.ts:147-152 | So is the order in which an object gives back sorted keys, index keys first. |
| CanonicalJson.IndexKeysAreNumbers | src/clientStartAdmission.ts:147-152 | The index keys are the numerals below 2^32 - 1, in numeric order and before all others. |
| CanonicalJson.RecursiveRequestDigestDecides | src/recursiveControl.ts:184-221 | The recursive request text decides "same request". |
| CanonicalJson.OwnerJsonDecides | src/clientStartAdmission.ts:144-162 | The owner and client-start text decides "same field" and "same request". |
| Ordering.SortedIsUnique | src/recursiveControl.ts:35-36 | A sorted list is determined by its elements. |
| Ordering.SortSorts | src/authoringEffectScope.ts:276-276 | Sorting distinct keys sorts them. |
| Ordering.SortAscends | src/authoringEffectScope.ts:308-308 | Sorting by a key keeps the elements and puts none below an earlier one. |
| Transcript.BlocksNext | src/output.ts:668-686 | A first controlling line drops what came before it; any other line appends. |
| Transcript.StreamingTranscript.AppendBlock | src/output.ts:637-653 | Refused exactly when the byte limit would be passed; otherwise file, counters and flags describe one more kept block. |
| Transcript.StreamingTranscript.ResetToInitialLines | src/output.ts:655-663 | Back to the initial blocks. |
| Transcript.StreamingTranscript.AppendProcessLine | src/output.ts:674-694 | After every accepted line the file is the join of the kept blocks of the batch meaning, within 1 MiB, with exact counts and flags. |
| Transcript.StreamIsBatchExactly | src/transcript.ts:164-209 | For lines without blank texts: the stream and the repository's own batch function leave the same text if and only if nothing public precedes the first control, and no public event is without one. |
| FailureStorage.RenderRoundTrip | src/failureStorage.ts:106-131 | A rewritten ledger is read back record by record. |
| FailureStorage.RecordsSeparate | src/failureStorage.ts:106-131 | A newline separates the records before it from those after it, whatever is torn on either side. |
| FailureStorage.TornLine | src/failureStorage.ts:106-131 | Beside a torn line every other record survives, and the torn one is dropped exactly if it is not complete. |
| FailureStorage.LongestFitIsUnique | src/failureStorage.ts:112-118 | There is one longest suffix that fits. |
| FailureStorage.FailureStore.RewriteNewestCompleteRecords | src/failureStorage.ts:106-131 | Leaves the longest suffix of complete records that fits, or no ledger. |
| FailureStorage.FailureStore.EnforceBudget | src/failureStorage.ts:133-148 | Ends within the budget, deletes the fewest oldest archives, and rewrites the ledger exactly when it alone is over the budget. |
| FailureStorage.EnforceTwice | src/failureStorage.ts:133-148 | Enforcing twice is enforcing once. |
| InputDelivery.FirstSettlementWins | src/inputMailbox.ts:266-307 | Over any sequence of settlement attempts by anyone: a request is settled by the first attempt for it, for good, and by nothing else. |
| InputDelivery.Mailbox.ClosePending | src/inputMailbox.ts:344-370 | Closes exactly what is pending, in any order. |
| InputDelivery.InputDesk.Refresh | src/inputMailbox.ts:199-251 | The listed status is pending exactly without a settlement and answered exactly for an accepted answer; what lost its acceptance is pending no more. |
| InputDelivery.InputDesk.AnswerInput | src/runTask.ts:5497-5606 | A frame is sent exactly for a pending request of a run that accepts input, and is the first one of its request while no timed-out settlement exists: an exact retry gets the same receipt, a changed answer or another response id is refused. |
| InputDelivery.InputDesk.Deliver | src/runTask.ts:5565-5603 | A delivery and its one frame are registered together. |
| InputDelivery.InputDesk.ChildAccepts | src/runTask.ts:5435-5495 | Settles exactly the awaited response of a run that still accepts input and is not settled otherwise, in memory and on disk alike; a lost race publishes nothing and gives the delivery up. |
| InputDelivery.InputDesk.AcceptCancellation | src/runTask.ts:5144-5177 | Rejects what is on its way and closes exactly the pending requests in memory; the mailbox is closed by a later step. |
| InputDelivery.InputDesk.CloseCancelled | src/runTask.ts:5186-5196 | The close of the mailbox after an accepted cancellation settles exactly what is still pending. |
| InputDelivery.InputDesk.Finalise | src/runTask.ts:3302-3380 | Leaves every request settled and no settlement changed. |
| InputDelivery.ChildControl.OnResponse | src/piChildControl.ts:88-106 | A response goes to its waiter or into the buffer, never both. |
| InputDelivery.ChildControl.WaitForResponse | src/piChildControl.ts:123-147 | A wait takes the buffered response or registers, never both. |
| InputDelivery.ChildControl.WaitTimesOut | src/piChildControl.ts:138-141 | A wait that times out is forgotten. |
| InputDelivery.ChildControl.Dispose | src/piChildControl.ts:149-163 | The end of the child drops its waiters and what nobody waited for. |
| InputDelivery.ChildGetsEachOnce | src/piChildControl.ts:88-106 | A tool of the child gets only what the owner sent, and each request at most once while no timed-out settlement exists. |
| InputDelivery.Forward | src/piChildControl.ts:88-106 | The channel hands the owner's frames over in order. |
| InputDelivery.OneFrame | src/runTask.ts:5497-5606 | At most one frame a request, ever, while no timed-out settlement exists. |
| InputDelivery.Take | src/runTask.ts:5435-5606 | Every step of owner, channel and child keeps both ends' invariants and writes no timed-out settlement. |
| InputDelivery.Converse | src/runTask.ts:5435-5606 | Over any sequence of steps the program has: at most one frame a request is sent, at most one response a request reaches a tool, and no settlement is replaced. |

## Left out

- MCP tool registration, schemas, readiness, build facts and model lists: data or plumbing.
- Pi sessions, tool construction, sockets, operating-system signals, process groups and real timers:
  external behaviour; a timer is a step that may happen.
- `src/processRunner.ts`: its settlement depends on event ordering and on probes of process groups.
- Stealing of stale locks in `src/runClaimLock.ts`, `src/activeChildLease.ts` and `src/session.ts`:
  replaced by the exclusive-lock assumption.
- Waiting of a parent for its subtree inside one process: a child is listed before its background
  promise is installed, so only the restart-time form is modelled.
- Order between new arrivals and queued runs: a free slot is granted without looking at the queue.
- The field-by-field record validators, error taxonomies and timeout budgets: long but shallow.
- Redaction patterns and the parsing of transcript lines.
- The locale-based key sort of `jsonEquivalent` in `src/session.ts`: modelled as equality.
- Torn appends and power loss without fsync in the session store.
- `undefined` members of a JSON value: one printer drops them, the other throws.
- The order of allowed output paths by UTF-8 bytes of the whole path, and the real-path checks of the
  authored tree: only the tree below its root is modelled.
- Packet policies and packet files of session turns, and the resumption identity checks of a session.
- Removal of a settled run's mailbox directory and the eviction of terminal runs from memory.
- Capacity.HeldIsOnDisk: does not cover lease files that cannot be read, which the program counts as active.
- Capacity.NothingEverLeaks: assumes that the return of a lease succeeds, see the assumptions.
- InputDelivery.OneFrame: holds over every step the program has (`InputDelivery.Converse`); a `timed_out`
  settlement, which the mailbox takes and nothing in the repository writes, could let a second frame out
  (`InputDelivery.SecondFrame`).
- InputDelivery.InputDesk.AnswerInput: speaks of one server without I/O failure; after a failed record write a second frame may be sent.
- PairedOutputs.PairIsSafe: does not cover staged files of a pair that was never accepted, which a crash may leave behind.
- Reconcile.RunStore.GetPersistedRunTask: liveness is an arbitrary answer here; that the second one is not fooled is shown in `Capacity.dfy`.
