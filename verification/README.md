# Verified model of the rental point of sale

A Dafny 4.11 model of the logic that the offline-first rental app and its backend rely on, with
proofs of what that logic guarantees. `dafny verify dfyconfig.toml` checks everything.

## What is modelled

**The outbox and the replica.** `LocalTables` holds the tables of one scoped local database and the
SQL statements as effects on rows; `Repository` gives each exported step of the repository as a
function from the tables before to the tables after, or `RolledBack` where the step throws.
`LocalStore` is the program's own form: one object whose methods change the tables statement by
statement and loop over items and pages; each method is proved equal to its function. `Device` puts
these steps, the engine, the quarantine and the server's change log together as a machine; a run is
any sequence of steps, so every theorem about runs covers crashes, lost and late answers, aborted pushes,
restarted pulls, package lists stored beside the log and any order of user actions. `Frames`, `InOrder`,
`EditEffects`, `PullEffects`, `Conflicts`, `ConflictRecords`, `Undo`, `PaymentUndo`, `PaymentConflicts`,
`RefusedCreates`, `History`, `Quarantine`, `ServerLog`, `Coverage`, `Convergence` and `StoredPackages` hold the
invariants and theorems; `SyncEngine` has the push and pull loops, `SingleFlight` the sharing of a running sync.
`Witnesses` runs the machine on concrete inputs, so that the premises of the theorems are met and each
failure below is seen in a reachable device.

**The concurrency layer.** `MutationBarrier` (shared leases against one exclusive transition),
`ModeSwitch` (the gate of a mode switch over barrier and outbox together), `SandboxRecovery` (the shared
one-time recovery, with `RecoveryDeeds` on what an attempt has done) and `LocalTransaction` (the ticket queue of a database connection, and the statements
that run beside it) are small-step machines in which every synchronous stretch between two awaits is one step; the first and third also
come as classes with the program's variables.

**QRIS.** `Tlv`, `QrisCrc`, `QrisText`, `Qris` and `QrisDynamic` model the app's parser, checksum, static
check and conversion to a dynamic payload; `QrisPayload` models the backend's validator and compares
the two; `QrisSamples` and `QrisLateElement` have concrete payloads, the latter computing a checksum with
`QrisRegister`, the loops on four hexadecimal digits. The format is the EMVCo QR Code Specification for Payment Systems, Merchant-Presented Mode,
section 4.7.

**Documents and calendar.** `ReceiptText` and `QrRaster` (thermal printing), `Calendar` and `Dashboard`
(Jakarta days, months and the trend buckets; dates after ECMA-262, section 21.4.1), `PdfText` and
`PdfDocument` (the report writer; ISO 32000-1, sections 7.3.4.2 and 7.5.4), `Csv` (section 2 of RFC 4180)
and `Numerals`.

## Where the code does less than one might expect

Each of these is proved with its exact condition. One of the lemmas named gives a concrete input with which
it happens; in the item on PDF and CSV the condition speaks of the input itself.

- Discarding a refused chain of corrections restores the state before it, unless the server's refusal
  text starts with `PAYMENT_STATE_CONFLICT: `; then the discard always rolls back (`Undo.ExactUndo`,
  `Witnesses.PrefixedRefusalStays`). A real payment conflict stores a snapshot, and discarding leaves
  exactly that (`PaymentConflicts.PaymentConflictKeepsServer`, `Witnesses.ConflictedCorrection`).
- Discarding a refused payment decision goes back to the state before it exactly if no later decision of the
  transaction carries the same time, because the stored state is looked up by that time alone; with the
  prefix in the refusal it always rolls back too (`PaymentUndo.ExactPaymentUndo`,
  `Witnesses.TiedDecisions`).
- A plainly refused create cannot be discarded: the app confirms a payment when it creates the transaction, so
  after a plain refusal, whatever its text, and any run without pulls, discarding any edit of the
  transaction changes nothing and the create stays rejected (`RefusedCreates.RefusedCreateStays`,
  `Witnesses.RefusedCreateIsKept`). A discard of a create succeeds exactly if no payment and no print
  proves the transaction (`RefusedCreates.DiscardedCreate`).
- Along a run nothing that a pull skipped is ever lost exactly if no release of quarantined operations
  falls between two pages of a pull and frees a transaction of which that pull has skipped a change, because
  the pull goes on from its own cursor (`Coverage.RunsLoseNothingExactly`). A lost change stays missing
  until a release rewinds the cursor, and no longer (`Coverage.PassedUntilRewind`); it does happen
  (`Witnesses.ReleaseLosesArchive`).
- At every committed cursor, also while a rewound pull is catching up, a transaction without local
  operations shows the fold of the log up to the cursor exactly if it is absent or one of the covered
  rows has put it there, and a package that only pulls have written exactly if the covered rows hold a
  revision as high as the one shown (`Convergence.TxViewIsFoldExactly`,
  `Convergence.PackageViewIsFoldExactly`). A transaction that was edited here and whose operations are all
  settled and free follows the same rule from the next upsert on (`Convergence.SettledFollowsFold`). Once
  the pull has caught up the condition holds (`Convergence.CaughtUpViewIsFold`); before that, rows that only
  later log rows have put there are newer than the cursor (`Witnesses.RewindShowsMore`).
- The package screen stores the server's list beside the log, and deleting a package does not raise its
  revision. So a list that was answered before a deletion and arrives after it brings the package back.
  From then on the package shows the fold of the log exactly if the list had changed nothing, or a pulled
  row writes it with a revision as high as both, or only the deletion differs and a pulled row deletes it
  (`StoredPackages.StoredPackageIsFoldExactly`); a rewind restores the earlier rule
  (`StoredPackages.RewoundPackageIsFoldExactly`, `Witnesses.StaleListRevives`).
- The backend's QRIS check does not force the checksum to be the last element and the app stops at the
  first good merchant template; apart from that and from outer white space the two accept the same
  payloads (`QrisPayload.ValidatorsAgree`). Concrete payloads: one that only the backend accepts, with an
  element behind the checksum, and two that only the app accepts (`QrisLateElement.LateElementIsAccepted`,
  `QrisSamples.ValidatorsDiffer`).
- A recovery attempt stays in the table without ever starting exactly if it was refused at its creation
  for its caller's inactive lease, and until a lease owner that waited for it replaces it; as long as it
  stays, nothing is done for its session and callers without a lease get no attempt of their own
  (`SandboxRecovery.StuckExactly`, `SandboxRecovery.StuckUntilReplaced`, `SandboxRecovery.InactiveLeaseSticks`).
- The shared connection is left in an open transaction exactly by a failed ROLLBACK; from then on no call
  gets a transaction and nothing becomes durable any more (`LocalTransaction.LeftOpenExactly`,
  `LocalTransaction.EntersUnlessLeftOpen`, `LocalTransaction.LeftOpenStaysOpen`, and on one run
  `LocalTransaction.OutsiderLost`).
- Some statements run on that connection without queueing, the insert of a print attempt, the sync-error
  field and the lifting of a block among them. Such a statement is durable exactly if no transaction was open, or the
  work whose transaction was open commits (`LocalTransaction.OutsiderDurableExactly`,
  `LocalTransaction.OutsiderLost`).
- The PDF escape is undone by a reader exactly when the line has no carriage return
  (`PdfText.EscapeIsUndone`), and a CSV table reads back exactly when it has rows and every row has cells
  (`Csv.CsvIsExact`).

A local correction confirms its payment at once, while a retry after a conflict leaves it pending, and a
retry keeps the terminal of the local row; the model follows the code here.

## Model

| member | source | states |
|---|---|---|
| InOrder.RunsAreOrdered | apps/mobile/src/db/repositories.ts:1098-1148 | in every reachable outbox, once an operation of a key is pending or in error, every later one of that key is still pending and was never fetched, and everything before a fetched, unanswered operation of its key is settled |
| InOrder.RunsKeepEvidence | apps/mobile/src/db/repositories.ts:2182-2208 | no further run deletes an operation or alters its JSON, signature or key; a settled row is never sent again and a resolved one stays resolved |
| InOrder.BatchHasOnePerKey | apps/mobile/src/db/repositories.ts:1098-1148 | a fetched batch has at most one operation per key |
| InOrder.BatchItemsAreIndependent | apps/mobile/src/db/repositories.ts:1150-1340 | recording an answer to one fetched operation leaves every other fetched operation's row as it was |
| InOrder.MarkKeepsOrder | apps/mobile/src/db/repositories.ts:1150-1340 | whatever the answer, recording it keeps the queue in order and the evidence of every row |
| InOrder.RetriedAfterDelay | apps/mobile/src/db/repositories.ts:1098-1148 | an operation without an answer is sendable again from thirty seconds on and not before, unless it is quarantined |
| InOrder.AbortedIsSentAgain | apps/mobile/src/sync/engine.ts:100-136 | an aborted push changes nothing stored, and the next fetch takes the sendable operations again |
| Conflicts.RunsAreBooked | apps/mobile/src/db/repositories.ts:1304-1338 | in every reachable state a key has at most one operation in conflict and one open record, one exactly if the other, and its sync state says conflict exactly then; while one is open nothing but print evidence waits behind it |
| Conflicts.ConflictsAgree | apps/mobile/src/db/repositories.ts:2422-2456 | the numbers of conflict operations and of unresolved records of a transaction are equal and at most one, and the sync state is conflict exactly when it is one |
| Conflicts.ServerChoiceResult | apps/mobile/src/db/repositories.ts:1712-1900 | choosing the server leaves the row and items of the recorded server snapshot, no operation in conflict, no open record and no rejected operation on the key |
| Conflicts.RetryResult | apps/mobile/src/db/repositories.ts:1712-1900 | retrying leaves exactly one unsettled transaction operation, a new pending correction with the old payload whose base is the server's revision; the transaction keeps the local items, sale, origin, terminal and print state, charges the local total, is unpaid, and stands one revision above the server's with its receipt identity |
| ConflictRecords.ConflictIsRecorded | apps/mobile/src/sync/engine.ts:160-187 | a revision conflict appends one open record: its server side has the answer's current revision and server sale, payment state and lines, its local side the revision above the base and the answer's local ones |
| ConflictRecords.PaymentConflictIsKept | apps/mobile/src/sync/engine.ts:203-246 | a payment conflict stores the answer's server sale and lines at its revision, with the payment state the answer names, both as the transaction and for a later discard |
| ConflictRecords.AnswerSettles | apps/mobile/src/sync/engine.ts:138-281 | for every kind of answer: the state, error text, attempts and next time of the operation, malformed and unmappable conflicts included |
| ConflictRecords.AnswerShows | apps/mobile/src/db/repositories.ts:1150-1340 | what an answer without a conflict leaves of the row: a refusal takes the confirmation back unless it is a create whose payment or print is proved |
| ConflictRecords.RecordFollowsPulls | apps/mobile/src/db/repositories.ts:1966-1992 | after any run the server side of a record that stayed open is what the pulled log rows of its transaction, frozen ones excepted, make of it: the last snapshot, or the deletion time; nothing else of it changes |
| ConflictRecords.ServerChoiceFollowsPulls | apps/mobile/src/db/repositories.ts:1712-1900 | end to end: a conflict answer, any run, then choosing the server leaves what the answer said of the server, moved on by every row pulled since |
| ConflictRecords.ResolutionAllowed | apps/mobile/src/db/repositories.ts:1712-1815 | exactly which resolutions are let through |
| Undo.ExactUndo | apps/mobile/src/db/repositories.ts:1426-1642 | after any run without pulls in which the server refuses the first of a chain of local edits, discarding any operation of the chain restores transaction and items to the snapshot before it, with no revision or item above and no rejected operation left; with the payment-conflict prefix in the refusal it always rolls back instead |
| PaymentUndo.ExactPaymentUndo | apps/mobile/src/db/repositories.ts:1580-1606 | the same for a chain that a payment decision begins: after any run without pulls in which it is refused, the discard restores the state before the decision exactly if no later decision of the transaction has the same time; with the prefix it rolls back |
| Undo.DiscardingUndoes | apps/mobile/src/db/repositories.ts:1476-1629 | the same for one state: a refused chain without the prefix is undone by discarding any of its operations |
| Undo.PrefixBlocks | apps/mobile/src/db/repositories.ts:1476-1629 | with the prefix and no stored authoritative snapshot the discard throws and nothing changes |
| Undo.ChainThroughRun | apps/mobile/src/db/repositories.ts:350-507 | a chain of unsent edits keeps the snapshot of its origin through any run without pulls |
| Undo.RefusedThroughRun | apps/mobile/src/db/repositories.ts:1285-1297 | a refused chain stays refused as a whole, snapshots included, until all of it is discharged |
| PaymentConflicts.PaymentConflictKeepsServer | apps/mobile/src/db/repositories.ts:1233-1268 | in every reachable device, after a payment conflict for a sent edit that is no create and any run without pulls, discarding any edit that answer rejected leaves exactly the snapshot the server sent, no revision or item above it, no stored revision of a rejected correction and nothing rejected |
| PaymentConflicts.StandsThroughRun | apps/mobile/src/db/repositories.ts:1522-1553 | the conflict stands through any run without pulls, its stored snapshot included, until the rejected edits are discharged together |
| RefusedCreates.DiscardedCreate | apps/mobile/src/db/repositories.ts:1476-1519 | with a refused create among the rejected edits a discard succeeds exactly if no payment and no print proves the transaction, and archives it with its items kept |
| RefusedCreates.RefusedCreateStays | apps/mobile/src/db/repositories.ts:1503-1508 | after any run, a created transaction whose create is plainly refused, with any text, stays refused and paid through any run without pulls, and discarding any of its edits then changes nothing |
| PaymentConflicts.RunsCreateFirst | apps/mobile/src/db/repositories.ts:210-328 | in every reachable device only the first edit of a transaction can be its create |
| Witnesses.RefusedCorrection | apps/mobile/src/db/repositories.ts:1476-1629 | a created and sent transaction whose correction is refused, with any text: the premises of the exact undo are met, and discarding brings the created state back exactly if the text lacks the prefix |
| Witnesses.RefusedDecision | apps/mobile/src/db/repositories.ts:1580-1606 | an unpaid transaction is pulled, confirmed here and refused, with any text: discarding makes it unpaid again exactly if the text lacks the prefix |
| Witnesses.TiedDecisions | apps/mobile/src/db/repositories.ts:1580-1606 | two decisions of one time, the first refused: the discard succeeds and does not restore the state before them |
| Witnesses.ConflictedCorrection | apps/mobile/src/db/repositories.ts:1233-1268 | a sent correction that is answered with a payment conflict: the premises of that theorem are met, and discarding leaves the server's snapshot |
| Witnesses.RefusedCreateIsKept | apps/mobile/src/db/repositories.ts:1503-1508 | a created transaction whose create is refused: discarding it changes nothing |
| Witnesses.PrefixedRefusalStays | apps/mobile/src/db/repositories.ts:1522-1549 | one refusal text with which the discard rolls back, and one with which it succeeds |
| History.RunsLinkHistory | apps/mobile/src/db/repositories.ts:2156-2180 | in every reachable device the snapshot stored with revision r is of revision r - 1, and first revisions have none |
| EditEffects.TotalAdds | apps/mobile/src/db/repositories.ts:210-328 | what a sale costs is additive over its lines; one line costs its quantity times its unit price (TotalOfLine); of the entered lines exactly those with a positive quantity are sold (SelectedAdds, SelectedLine) |
| EditEffects.CreateWrites | apps/mobile/src/db/repositories.ts:210-328 | a create: first revision, paid, the lines as its items, its total as the amount, a signed pending operation, and no other table touched |
| EditEffects.CorrectionWrites | apps/mobile/src/db/repositories.ts:350-507 | a correction: next revision, paid at once, new sale and items, a printed receipt due again, the snapshot before it kept |
| EditEffects.DecisionWrites | apps/mobile/src/db/repositories.ts:519-624 | a decision stores the status as decided, confirms the current revision exactly if it is a success, and audits both states; a repeated one does nothing |
| EditEffects.PrintResultWrites | apps/mobile/src/db/repositories.ts:984-1073 | a print result is stored with its attempt and shown exactly if the attempt was of the current revision |
| EditEffects.DiscardedPrint | apps/mobile/src/db/repositories.ts:1632-1641 | discarding a refused print result settles that operation alone, and the transaction shows the worst of what its operations ask for |
| EditEffects.EditsAllowed | apps/mobile/src/db/repositories.ts:210-624 | exactly which local edits are let through |
| History.EditsAdvance | apps/mobile/src/db/repositories.ts:350-507 | a local edit touches one transaction, never takes a confirmed payment back, moves the revision by one exactly for a correction, keeps the state and items before it, and charges the sum of its lines |
| Quarantine.PullsFreeze | apps/mobile/src/db/repositories.ts:1959-1964 | while an operation of a transaction is quarantined no pull touches its row, items, revisions, conflict records or operations |
| Quarantine.StepFlags | apps/mobile/src/db/repositories.ts:2182-2208 | every step but quarantining and releasing keeps all flags, and a new operation is quarantined exactly when its scope is blocked or its key has a quarantined operation |
| Quarantine.OnlyReleaseFrees | apps/mobile/src/tenant/quarantine.ts:47-129 | only a release by the operation's origin actor, with its origin allowed, frees it |
| Quarantine.ReleaseFreesExactly | apps/mobile/src/tenant/quarantine.ts:97-127 | a release frees exactly the actor's read operations whose origin was allowed, and resets the cursor exactly if there are any |
| Quarantine.BlockWrites | apps/mobile/src/tenant/quarantine.ts:14-38 | blocking gives every unsettled operation the reason, and records the actor exactly for reasons about the actor's access |
| Quarantine.RevalidationReopens | apps/mobile/src/db/repositories.ts:2182-2208 | once access is revalidated a new operation is quarantined exactly if its transaction still has a quarantined one |
| Quarantine.FreedOnlyByOrigin | apps/mobile/src/tenant/quarantine.ts:47-129 | along any run, a quarantined operation that is free at the end was released by its own origin actor |
| Quarantine.BlockedSendsNothing | apps/mobile/src/tenant/quarantine.ts:14-38 | from the moment a scope is blocked, through any run without a release or a revalidation, every unsettled operation, new ones included, is quarantined and a fetch finds nothing to send |
| PullEffects.PullWrites | apps/mobile/src/db/repositories.ts:1966-2036 | a pulled upsert is taken over as it is, a delete sets only the time of deletion, and the sync state is that of the worst open operation |
| PullEffects.PullSettles | apps/mobile/src/db/repositories.ts:2024-2031 | of the outbox a pulled change settles exactly the refused and discarded operations of its transaction |
| PullEffects.PullForgets | apps/mobile/src/db/repositories.ts:1994-2012 | of the stored revisions and items exactly those that refused corrections wrote, and those above, are gone |
| PullEffects.PrintPulled | apps/mobile/src/db/repositories.ts:2033-2073 | a pulled print result is stored in any case and shown on its transaction unless that is quarantined |
| Coverage.PageWritesApplied | apps/mobile/src/db/repositories.ts:1931-2083 | a page carries out exactly the log rows it records as applied, one after another in log order, and the transactions of the others stay frozen |
| Coverage.AppliedWereWritten | apps/mobile/src/db/repositories.ts:1931-2083 | every log row that a run records as applied was carried out on its transaction by one of its pages |
| Coverage.RunsLoseNothingExactly | apps/mobile/src/tenant/quarantine.ts:97-127 | over a whole run, every key without quarantined operations always has all server changes up to both cursors applied exactly if no release in the middle of a pull frees a transaction of which that pull has skipped a change |
| Coverage.StepIsExact | apps/mobile/src/sync/engine.ts:286-441 | from a device that has lost nothing, the only step that loses a change is such a release |
| Coverage.ReleaseBetweenPages | apps/mobile/src/sync/engine.ts:286-441 | a release in the middle of a pull, seen from the next page: nothing is lost exactly if every change the pull has skipped is still frozen |
| Coverage.PassedUntilRewind | apps/mobile/src/tenant/quarantine.ts:119-126 | a change that both cursors have passed without applying it stays missing after a step exactly unless the step is a release that resets the cursor |
| ServerLog.PageFollowsLog | apps/backend/internal/usecase/sync.go:34-58 | a page is exactly the next rows of the log, at most the limit, its cursor stands behind the last one and only moves forward, and there is more exactly when the log goes on |
| ServerLog.Pull | apps/backend/internal/usecase/sync.go:34-58 | reading limit + 1 rows and cutting one off gives exactly that page |
| ServerLog.RunsKnowCursors | apps/mobile/src/db/repositories.ts:1931-2083 | stored and in-progress cursors never point past the log, and the furthest committed page bounds them |
| Convergence.RunsConverge | apps/mobile/src/db/repositories.ts:1931-2083 | in every reachable device, finishing the pull from the cursor gives each transaction without local operations and each package that only pulls have written the fold of the server log |
| Convergence.CaughtUpViewIsFold | apps/mobile/src/db/repositories.ts:1931-2083 | whenever the cursor is as far as it ever was, the local view of what only pulls have written is exactly the fold of the log up to it |
| Convergence.SameLogSameView | apps/mobile/src/db/repositories.ts:169-197 | page sizes, restarts from a null cursor and crashes do not matter: two caught-up devices show the same wherever only pulls have written |
| Convergence.PackageRestartAbsorbed | apps/mobile/src/db/repositories.ts:169-197 | replaying old log rows over a newer package never overwrites it |
| Witnesses.ReleaseLosesArchive | apps/mobile/src/tenant/quarantine.ts:97-127 | a run after which the server has archived a transaction, the cursor stands at the end of the log, nothing is quarantined, and the transaction is live |
| Convergence.TxViewIsFoldExactly | apps/mobile/src/db/repositories.ts:1931-2083 | in every reachable device, caught up or not, a transaction without local operations shows the fold of the log up to the stored cursor exactly if it is absent or one of those log rows upserts it |
| Convergence.PackageViewIsFoldExactly | apps/mobile/src/db/repositories.ts:169-197 | in every reachable device a package that no list has written shows that fold exactly if those log rows hold a revision as high as the one shown |
| Convergence.SettledFollowsFold | apps/mobile/src/db/repositories.ts:1931-2083 | a transaction with local operations, all settled and free, that a page upserts shows the fold under the same exact condition after any further run that adds no operation to it |
| StoredPackages.StoredPackageIsFoldExactly | apps/mobile/src/db/repositories.ts:159-197 | after a list has written a package, and until a rewind or another list, it shows the fold of the log exactly if the list changed nothing, a pulled row writes it with a revision as high as both, or only the deletion differs and a pulled row deletes it |
| StoredPackages.RewoundPackageIsFoldExactly | apps/mobile/src/db/repositories.ts:159-197 | once a release has reset the cursor, whatever lists were stored before, the condition is again that the covered rows hold a revision as high as the one shown |
| Witnesses.StaleListRevives | apps/mobile/src/app/(app)/packages/index.tsx:52-72 | a list answered before a deletion and stored after it brings the package back, and it stays wrong as long as no new row, list or release arrives |
| Witnesses.EditedFollowsLog | apps/mobile/src/db/repositories.ts:1931-2083 | a created, applied and then pulled transaction meets the premises and shows the fold of the log |
| Witnesses.RewindShowsMore | apps/mobile/src/db/repositories.ts:2075-2082 | a run that ends with a committed page of a rewound pull, after which a transaction is not the fold of the log up to the cursor |
| LocalStore.LocalStore.CreateTransaction | apps/mobile/src/db/repositories.ts:210-328 | lines without a positive quantity are dropped first; then the statement-by-statement insert of row, items, revision and operation commits exactly the tables of the step, or none |
| LocalStore.LocalStore.CorrectTransaction | apps/mobile/src/db/repositories.ts:350-507 | the checks and writes of a correction commit exactly the tables of the step, or none |
| LocalStore.LocalStore.SetPaymentStatus | apps/mobile/src/db/repositories.ts:519-624 | a payment decision commits exactly the tables of the step, or none |
| LocalStore.LocalStore.CompletePrintAttempt | apps/mobile/src/db/repositories.ts:984-1073 | a print result updates attempt, row and outbox together, or nothing |
| Repository.Batch | apps/mobile/src/db/repositories.ts:1098-1148 | the batch holds the first sendable operations in queue order: all of them, or as many as the limit allows with none before them left out |
| LocalStore.LocalStore.MarkOutboxResult | apps/mobile/src/db/repositories.ts:1150-1340 | every kind of answer, its cascade, its conflict record and the recomputed sync state, as one transaction |
| LocalStore.LocalStore.DiscardRejectedOperation | apps/mobile/src/db/repositories.ts:1426-1642 | discarding, with its recovery loops over stored snapshots, commits exactly the tables of the step, or none |
| LocalStore.LocalStore.ResolveConflict | apps/mobile/src/db/repositories.ts:1712-1900 | both resolutions commit exactly the tables of the step, or none |
| LocalStore.LocalStore.ApplyRemoteChanges | apps/mobile/src/db/repositories.ts:1931-2083 | the page loop applies every change in order and then moves the cursor |
| LocalStore.LocalStore.StorePackage | apps/mobile/src/db/repositories.ts:159-197 | a package is written only if its revision is not older than the stored one, so the stored revision never falls |
| LocalStore.LocalStore.BeginPrintAttempt | apps/mobile/src/db/repositories.ts:907-963 | an attempt is begun only for the current, paid revision of a live transaction none of whose operations is quarantined, in conflict or refused |
| LocalStore.LocalStore.BlockScope | apps/mobile/src/tenant/quarantine.ts:14-38 | afterwards no fetch, at whatever time, finds anything to send, and nothing of the rows but the flag has changed |
| LocalStore.LocalStore.InsertItems | apps/mobile/src/db/repositories.ts:2131-2154 | the insert loop adds exactly one item per line to the revision's items |
| LocalStore.LocalStore.ReleaseAllowed | apps/mobile/src/tenant/quarantine.ts:97-127 | the release loop frees exactly the allowed operations of the actor, returns the number of operations it freed, and resets the cursor when there are any |
| SyncEngine.SyncEngine.PushRound | apps/mobile/src/sync/engine.ts:100-284 | one round is a run of the machine, and the due operations fall by at least the batch, whatever the server answers |
| SyncEngine.SyncEngine.PushAll | apps/mobile/src/sync/engine.ts:100-284 | the push loop ends with nothing left to send, within as many rounds as there were due operations |
| SyncEngine.SyncEngine.PullAll | apps/mobile/src/sync/engine.ts:286-441 | against any answers with N distinct cursors the pull loop ends within N + 1 pages, has applied exactly the pages it says, throws exactly when its last page had more, and never when the cursor moves |
| SyncEngine.HonestRises | apps/mobile/src/sync/engine.ts:297-304 | the real pager always moves the cursor, so the guard never fires, and the last page ends at the end of the log |
| SyncEngine.PulledIsRun | apps/mobile/src/sync/engine.ts:286-441 | the pages of a pull against the real pager are a run of the machine |
| SyncEngine.MarkShrinksDue | apps/mobile/src/db/repositories.ts:1150-1340 | an answered operation is not due again within 30 seconds and no other becomes due |
| SingleFlight.SyncsNeverOverlap | apps/mobile/src/sync/engine.ts:53-67 | in every interleaving at most one sync runs, and a caller only shares a sync of its own session |
| SingleFlight.WaitsForLanding | apps/mobile/src/sync/engine.ts:53-67 | a chained caller goes on waiting while the flight it waits for is running |
| SingleFlight.WakeMovesOn | apps/mobile/src/sync/engine.ts:53-67 | a caller chained behind another session's sync is served or chained again when it lands |
| MutationBarrier.RunsAreGuarded | apps/mobile/src/mode/mutation-barrier.ts:30-122 | over every interleaving the counter is the number of unreleased leases, a drained or granted transition never coexists with one, the waiting transition sits in the single slot, and nobody waits without someone who will wake it |
| MutationBarrier.DrainEnds | apps/mobile/src/mode/mutation-barrier.ts:80-108 | a waiting transition is woken once every lease it found has been released, whatever else happens meanwhile, and no new lease joins |
| MutationBarrier.ReopenWakes | apps/mobile/src/mode/mutation-barrier.ts:88-98 | releasing the transition wakes every waiting task |
| MutationBarrier.MutationBarrier.BeginLocalMutation | apps/mobile/src/mode/mutation-barrier.ts:30-74 | a lease is reserved unless a transition is active or the caller's data space is stale |
| MutationBarrier.MutationBarrier.Release | apps/mobile/src/mode/mutation-barrier.ts:58-74 | releasing twice counts once, and the last release resolves the waiting transition |
| MutationBarrier.MutationBarrier.BeginModeTransition | apps/mobile/src/mode/mutation-barrier.ts:80-108 | a second transition throws; the first waits exactly when leases are out |
| MutationBarrier.MutationBarrier.ReleaseMode | apps/mobile/src/mode/mutation-barrier.ts:86-99 | admission reopens and all waiters are resolved, once |
| MutationBarrier.MutationBarrier.BeginModeSafeLocalAccess | apps/mobile/src/mode/mutation-barrier.ts:115-122 | a task gets a lease exactly when no transition is active, and waits again otherwise |
| ModeSwitch.RotationFindsOutboxEmpty | apps/mobile/src/auth/auth-store.ts:573-606 | from the rotation of the session until the lease is released no local lease is held, the old scope has no unsettled operation outside quarantine, and no next step adds or frees one; only the exit from a disabled Sandbox is exempt |
| ModeSwitch.GateOpensExactly | apps/mobile/src/auth/auth-store.ts:573-606 | a synchronized switch passes exactly if it is exempt or every unsettled operation is quarantined; from an empty outbox it goes through (EmptyOutboxSwitches) |
| ModeSwitch.BackgroundStaysClear | apps/mobile/src/db/repositories.ts:1342-1348 | without a local lease no step of push, pull or quarantine makes an operation count as pending again |
| ModeSwitch.CountPendingOutbox | apps/mobile/src/db/repositories.ts:1342-1348 | the count is zero exactly when no unsettled operation is outside quarantine |
| SandboxRecovery.AtMostOneRotation | apps/mobile/src/mode/recovery.ts:112-179 | over every interleaving, with any leases and targets, at most one attempt per retired session starts and the one-time switch is posted at most once |
| RecoveryDeeds.DeedsFollowStages | apps/mobile/src/mode/recovery.ts:185-260 | over every interleaving, what an attempt has done is exactly what its stage asks for: hide, wipe, one post, store, in this order; a failed one a prefix of these and then the closing of the session |
| RecoveryDeeds.SettledAttempts | apps/mobile/src/mode/recovery.ts:185-260 | so every fulfilled attempt has posted the one-time switch exactly once, in its place, and a rejected one has done nothing or closed the session |
| RecoveryDeeds.WakeSettles | apps/mobile/src/mode/recovery.ts:129-144 | a lease owner stops waiting once it wakes after the attempt it waited for has settled |
| RecoveryDeeds.UndisturbedSucceeds | apps/mobile/src/mode/recovery.ts:112-239 | a recovery that nothing disturbs is fulfilled |
| SandboxRecovery.FailedAttemptsDoNothing | apps/mobile/src/mode/recovery.ts:240-249 | an attempt that failed before starting has changed neither session, database nor server |
| SandboxRecovery.CallbacksRunOnce | apps/mobile/src/mode/recovery.ts:233-239 | when a successful attempt's promise resolves, every callback registered while recovering has run exactly once, in order, and nothing is added later |
| SandboxRecovery.OwnerTakesOver | apps/mobile/src/mode/recovery.ts:129-144 | a lease owner that waited for a harmless attempt starts its own as soon as that one rejected, unless another exists |
| SandboxRecovery.StuckExactly | apps/mobile/src/mode/recovery.ts:161-179 | in every reachable table an attempt that withdrew before starting is in the table after a step exactly if it was refused at once for its inactive lease, or was there before and no lease owner replaced it |
| SandboxRecovery.StuckWasBornWithdrawn | apps/mobile/src/mode/recovery.ts:188-197 | whatever ran, an attempt that is stuck in the table was refused at its own creation |
| SandboxRecovery.StuckUntilReplaced | apps/mobile/src/mode/recovery.ts:122-160 | as long as no lease owner replaces a stuck attempt it stays, nothing is done for its session, and callers without a lease get no attempt of their own |
| SandboxRecovery.FreshAttemptUnlessStuck | apps/mobile/src/mode/recovery.ts:240-249 | when every attempt of a session has withdrawn, a caller without a lease gets an attempt of its own exactly if none is stuck |
| SandboxRecovery.InactiveLeaseSticks | apps/mobile/src/mode/recovery.ts:188-197 | one call with an inactive lease leaves a stuck attempt |
| SandboxRecovery.RecoveryTable.RecoverRetiredSandboxGeneration | apps/mobile/src/mode/recovery.ts:112-179 | a call shares, joins, waits behind, refuses or creates an attempt; what it shares has its session and target |
| SandboxRecovery.RecoveryTable.AfterBarrier | apps/mobile/src/mode/recovery.ts:188-249 | a refused barrier removes the attempt and does nothing; a granted one starts it |
| SandboxRecovery.RecoveryTable.RunCallbacks | apps/mobile/src/mode/recovery.ts:233-237 | a round leaves the list empty and has called all that was registered |
| LocalTransaction.TransactionsAreSerial | apps/mobile/src/db/transaction.ts:10-44 | in every interleaving, statements outside the queue included, at most one work is inside a transaction, works enter in call order, and what is durable of works is that of the committed works run one after another |
| LocalTransaction.OutsiderDurableExactly | apps/mobile/src/db/repositories.ts:2085-2094 | a statement run outside the queue is durable exactly if no transaction was open when it ran, or the work whose transaction was open has committed |
| LocalTransaction.OutsiderLost | apps/mobile/src/db/repositories.ts:950-961 | such a statement is lost with the work it joined, and a failed ROLLBACK there leaves the transaction open |
| LocalTransaction.SomeoneCanMove | apps/mobile/src/db/transaction.ts:14-23 | the queue never stalls: some call is inside or may enter as long as one has not left |
| LocalTransaction.LeftOpenExactly | apps/mobile/src/db/transaction.ts:34-40 | in every reachable connection a transaction is left open after a step exactly if one was, or the step is a failed ROLLBACK |
| LocalTransaction.EntersUnlessLeftOpen | apps/mobile/src/db/transaction.ts:24-30 | a call whose turn has come gets its transaction exactly if none is left open |
| LocalTransaction.LeftOpenStaysOpen | apps/mobile/src/db/transaction.ts:30-40 | once a transaction was left open nothing becomes durable on the connection any more, whoever runs it |
| QrisCrc.CalculateQrisCrc | apps/mobile/src/domain/qris.ts:136-145 | the 32-bit loops compute the 16-bit checksum, also for code units above 255 |
| QrisCrc.BackendCrc | apps/backend/internal/domain/qris_payload.go:51-61 | the 16-bit loops compute the same checksum |
| QrisCrc.AdjacentChangeIsDetected | apps/mobile/src/domain/qris.ts:136-145 | byte strings of one length that differ only within two adjacent bytes have equal checksums only when they are equal |
| QrisCrc.BitStepUndone | apps/mobile/src/domain/qris.ts:140-142 | the bit step is injective: it has an inverse |
| Tlv.ParseElements | apps/mobile/src/domain/qris.ts:54-81 | the parse loop gives the elements, or the first fault in its order of checks |
| Tlv.ParseInvertsEncode | apps/mobile/src/domain/qris.ts:54-134 | a payload parses to elements exactly when they are well formed and encode to it |
| Tlv.ValidateElementCollection | apps/mobile/src/domain/qris.ts:83-98 | the loop with its set of seen tags accepts exactly strictly increasing tags |
| Qris.ConvertElements | apps/mobile/src/domain/qris.ts:299-314 | the conversion loop inserts the amount once, before tag 58, and reports whether it did |
| QrisDynamic.DynamicExactly | apps/mobile/src/domain/qris.ts:293-337 | for every valid static payload and amount the conversion succeeds exactly when the payload grown by 4 and the digits fits 2048, and the result parses as dynamic with exactly that amount and the same merchant |
| QrisDynamic.AmountsAllowed | apps/mobile/src/domain/qris.ts:280-291 | only whole amounts from one to ten million make a dynamic payload, written without padding |
| QrisText.TrimTakesSpace | apps/mobile/src/domain/qris.ts:147-160 | trimming takes away white space at both ends, all of it and nothing else |
| QrisDynamic.DynamicUndone | apps/mobile/src/domain/qris.ts:293-337 | removing tag 54, setting tag 01 back and recomputing the checksum gives the static payload up to the checksum's letter case |
| QrisDynamic.ConvertShape | apps/mobile/src/domain/qris.ts:299-320 | the converted elements are the old ones with the amount right before tag 58 and tag 01 renewed |
| QrisDynamic.SealIsAccepted | apps/mobile/src/domain/qris.ts:147-217 | a sealed body parses exactly when it fits, as soon as its tags and merchant fields are good |
| QrisPayload.QrisElements | apps/backend/internal/domain/qris_payload.go:68-90 | the one-pass loop accepts exactly what parses in strictly increasing order, and maps each tag to its value |
| QrisPayload.ValidateStaticQRIS | apps/backend/internal/domain/qris_payload.go:11-66 | the checks in their order accept exactly the described payloads |
| QrisPayload.ValidatorsAgree | apps/mobile/src/domain/qris.ts:147-233 | on payloads that end with tag 63 the backend accepts exactly the app's trimmed static payloads whose templates are all in order |
| QrisLateElement.LateElementIsAccepted | apps/backend/internal/domain/qris_payload.go:48-64 | a concrete payload with an element behind its checksum: the backend accepts it and the app refuses it |
| QrisLateElement.LateText | apps/backend/internal/domain/qris_payload.go:11-35 | that payload, character by character |
| QrisRegister.RegisterFollows | apps/backend/internal/domain/qris_payload.go:51-61 | on a register of four hexadecimal digits one byte of the checksum loops is two shifts by a digit, whatever the register holds |
| QrisSamples.ValidatorsDiffer | apps/backend/internal/domain/qris_payload.go:36-50 | two payloads that the app accepts and the backend refuses: one with a broken second merchant template, one with a space before it |
| QrisSamples.SecondTemplateUnchecked | apps/mobile/src/domain/qris.ts:184-197 | whatever a second template holds that is not in order, the app does not look at it and the backend refuses it |
| QrisSamples.SomePayloadIsValid | apps/mobile/src/domain/qris.ts:219-233 | the premises of the QRIS theorems are met: concrete merchant payloads pass the static check, whatever their second template holds |
| QrisPayload.AlteredPayloadIsRefused | apps/mobile/src/domain/qris.ts:198-205 | a valid payload altered within two adjacent characters before its checksum value is never accepted, unless space is left at an end |
| ReceiptText.WrapPrinterLine | apps/mobile/src/printer/receipt.ts:32-68 | the wrapping loop with its flush and hard split gives the wrapped lines |
| ReceiptText.WrapKeepsInk | apps/mobile/src/printer/receipt.ts:32-68 | no line is longer than the paper, and no character but spaces is lost, added or moved |
| ReceiptText.WrapIsMinimal | apps/mobile/src/printer/receipt.ts:52-66 | when no word exceeds the width, no other setting of the words in order needs fewer lines |
| ReceiptText.WrapIsLayout | apps/mobile/src/printer/receipt.ts:52-66 | the wrapped lines are such a setting: consecutive words, one space between them |
| ReceiptText.PrintedLinesAreMinimal | apps/mobile/src/printer/receipt.ts:32-68 | the printed lines of a text are its words in order, one space between them, and no other setting that fits the paper has fewer lines |
| ReceiptText.TwoColumnsClips | apps/mobile/src/printer/receipt.ts:22-30 | the line is exactly as wide as the paper; the amount is whole, at the end behind a space, exactly when it leaves room, and the label exactly when both fit |
| ReceiptText.ClippedKeeps | apps/mobile/src/printer/receipt.ts:22-30 | a clipped label keeps as many characters as fit beside the amount and a space, and at least one; a clipped amount as many as fit beside the label |
| ReceiptText.ChunksAreFull | apps/mobile/src/printer/receipt.ts:83-92 | every piece of a split line but the last fills the paper, and the last is not empty |
| ReceiptText.FitReceiptLines | apps/mobile/src/printer/receipt.ts:83-92 | the splitting loops give the chunks of every line |
| ReceiptText.FitKeepsText | apps/mobile/src/printer/receipt.ts:83-92 | no printed line is too long, the text is kept, and the lines are unchanged exactly when all fit |
| QrRaster.EncodeRaster | apps/mobile/src/printer/receipt.ts:348-376 | every write is in bounds, and a dot is lit exactly when the module behind it exists and is dark |
| QrRaster.LayoutFits | apps/mobile/src/printer/receipt.ts:353-361 | a code is refused exactly when two dots a module do not fit; otherwise the image fits the paper at the largest scale up to four |
| QrRaster.MarginsStayUnlit | apps/mobile/src/printer/receipt.ts:349-366 | the quiet zone and the padding bits stay unlit |
| Calendar.KeyIsValidDate | apps/mobile/src/utils/time.ts:47-66 | letting the date normalise its parts and comparing rejects exactly the dates that do not exist or lie outside 1900 to 9999 |
| Calendar.CivilInverts | apps/mobile/src/utils/time.ts:57-65 | dates and day numbers correspond one to one |
| Calendar.DayFromYearIsFormula | apps/mobile/src/utils/time.ts:57-65 | counting years agrees with the closed form of ECMA-262 |
| Calendar.DaysTile | apps/mobile/src/utils/time.ts:89-96 | every instant lies in exactly one valid day range, that of its Jakarta date, and in none outside the supported years |
| Calendar.MonthIsItsDays | apps/mobile/src/utils/time.ts:164-186 | a month range is the exact concatenation of its day ranges |
| Calendar.MonthsTile | apps/mobile/src/utils/time.ts:98-105 | an instant lies in a month's range exactly when its Jakarta date is in that month |
| Calendar.JakartaMidnight | apps/mobile/src/utils/time.ts:89-96 | a day begins in Jakarta seven hours before it begins in UTC, and not earlier |
| Calendar.ShiftMovesDay | apps/mobile/src/utils/time.ts:132-149 | a shift moves the day number by the amount and fails exactly when it leaves the supported years |
| Calendar.ShiftsAdd | apps/mobile/src/utils/time.ts:132-149 | day shifts compose additively |
| Calendar.ShiftMovesMonth | apps/mobile/src/utils/time.ts:151-154 | a shift moves the month number by the amount and fails exactly when it leaves the supported years |
| Calendar.MonthShiftsAdd | apps/mobile/src/utils/time.ts:151-154 | month shifts compose additively |
| Dashboard.BucketIsPart | apps/mobile/src/db/repositories.ts:851-886 | every counted sale has a valid bucket, and bucket k holds exactly the sales of the k-th hour or day |
| Dashboard.MonthBucketIsDay | apps/mobile/src/db/repositories.ts:851-886 | in a month's trend the bucket is the Jakarta day of the month |
| Dashboard.RangeIsWhole | apps/mobile/src/db/repositories.ts:851-858 | ranges start on whole seconds and last a whole number of buckets: 24 hours, or the days of the month |
| Dashboard.BucketsConserveGross | apps/mobile/src/db/repositories.ts:811-886 | the buckets sum to the gross |
| Dashboard.GrossAdds | apps/mobile/src/db/repositories.ts:811-850 | a sale adds its total to the gross exactly if it is live, paid for its current revision and in the range, whose end is exclusive |
| Dashboard.FillBuckets | apps/mobile/src/db/repositories.ts:881-886 | the fill loop gives every bucket the sum of its sales, zero when it has none, and together the gross |
| PdfText.EscapeIsOnePass | apps/backend/internal/adapter/export/export.go:337-341 | the three passes are one pass that puts a backslash before each special byte |
| PdfText.EscapeReadsBack | apps/backend/internal/adapter/export/export.go:337-341 | a literal-string reader recovers any escaped line, with end-of-line markers as line feeds |
| PdfText.EscapeIsUndone | apps/backend/internal/adapter/export/export.go:337-341 | the escape is undone exactly when the line has no carriage return |
| PdfDocument.PagesHoldLines | apps/backend/internal/adapter/export/export.go:284-303 | the page slices concatenate to the lines, at most 48 each, and only a document without lines has an empty page |
| PdfDocument.StreamShowsLines | apps/backend/internal/adapter/export/export.go:302-311 | a viewer of a page's stream shows every line in order, cut to 116 bytes |
| PdfDocument.FillObjects | apps/backend/internal/adapter/export/export.go:290-319 | every object slot is written exactly once, with the object of its number |
| PdfDocument.PageRefersToContent | apps/backend/internal/adapter/export/export.go:290-317 | the object number that a page names is that of the stream of its own lines, whose stated length is its length |
| PdfDocument.TreeHoldsPages | apps/backend/internal/adapter/export/export.go:289-319 | the catalog names the page tree, which counts the pages it refers to |
| PdfDocument.MinimalPDF | apps/backend/internal/adapter/export/export.go:284-335 | the loops write exactly the document of those objects |
| PdfDocument.ObjectAtOffset | apps/backend/internal/adapter/export/export.go:321-327 | each object's text stands at its recorded offset |
| PdfDocument.TableIsExact | apps/backend/internal/adapter/export/export.go:328-332 | under ten billion bytes every cross-reference entry is 20 bytes in its place and its digits are the offset of its object |
| PdfDocument.StartPointsAtTable | apps/backend/internal/adapter/export/export.go:328-334 | the number after startxref points at the table |
| Csv.CsvReadsBack | apps/mobile/src/utils/csv.ts:7-19 | a reader after RFC 4180 recovers as many records and fields as there are rows and cells, each the guarded cell, whatever it contains |
| Csv.GuardedExactly | apps/mobile/src/utils/csv.ts:7-13 | a text gets the prefix exactly if it starts with a character that a spreadsheet takes for a formula; numbers never do |
| Csv.CsvIsExact | apps/mobile/src/utils/csv.ts:17-19 | the exact table comes back just when it has rows and every row has cells |

## Left out

- PaymentConflicts.PaymentConflictKeepsServer: an edit that is the create of its transaction is left to RefusedCreates.DiscardedCreate, because discarding a create never looks at the stored snapshot.
- PdfText.EscapeReadsBack: the reader ignores octal codes and line continuations, which the escape never writes.
- Each exported local mutation, its checks and its transaction, is one atomic step; the awaits for signing between check and write are not modelled as interleaving points. In the device machine the statements outside the transaction queue are durable at once; LocalTransaction says when they are.
- Field validation beyond quantities and payment kinds, role checks beyond who may correct, form quantities applied to the items of a transaction, the name of the first actor, and the QRIS fingerprint bound to a transaction.
- Duplicate rows that INSERT OR IGNORE would drop: lines of one transaction are distinct and item ids unique, so items of a revision are a set.
- Operation identifiers: an operation is named by its row number, because rows are never deleted.
- Signing, canonical JSON, SHA-256, ULIDs and the QR matrix itself are opaque values; stored snapshots are values, not JSON text.
- The package screen's loop over the list and its waiting: each stored package is one step of the machine, at any time.
- Local package edits, the sync-error field itself, interrupted-attempt recovery at start, the wipe of a Sandbox database on a new generation, and audits other than the two kinds that recovery reads back.
- Access failures, terminal status and session refresh inside the engine's loops: they end a sync or change nothing in the tables.
- Writes to the server's tables and the transport: the server is any sequence of log rows and any answers.
- In switchMode, what follows the rotation (persisting and exposing the replacement session, its first sync, the Sandbox recovery branch).
- resetMutationBarrierForTests and resetSandboxRecoveryForTests.
- A callback that throws synchronously while the others of its batch have not been called yet.
- The QRIS app faults carry no message text beyond the parser's own; parseQris is its result or a throw.
- Text normalisation of receipts: printed texts are taken as sanitized ASCII; the receipt layouts around the fitted lines are not modelled.
- Date keys as text: they are taken as their parts; instants beyond the range of Date are not distinguished from years after 9999.
- CSV numbers that are not integers, and the character encoding of exported files.
- The XLSX workbook, recap tables and the other export helpers.
