# Verified model of the update, storage and ledger protocols

This project models the protocols and ledgers of a project-management system for an engineering
company (a Python server, a TypeScript client and a Go updater) and proves what they promise.
Each file is one module, named after the component it models.

| file | component |
|---|---|
| `Updater.dfy` | the crash-safe update transaction, its backup, restore, recovery and cleanup, and the write barrier |
| `Dispatch.dfy` | the hand-over from the entry process to the update worker under one lock |
| `Publication.dfy` | concurrent publication of file versions into one directory, and the file names it uses |
| `Documents.dfy` | uploads that keep a file directory and the database in step, with reconciliation |
| `Idempotency.dfy` | the idempotent write protocol: client, lossy network, server table |
| `JsonSignature.dfy` | the canonical JSON signature that identifies a request body |
| `Inventory.dfy`, `Rounding.dfy` | the moving-average inventory ledger and its integer rounding |
| `ReceiptValuation.dfy` | order-line amounts, goods receipts in batches, and their reversal |
| `Commercial.dfy` | contracts, allocations, receipts, and the payment overview |
| `Migrations.dfy` | schema migrations run by any number of processes |
| `Versions.dfy`, `OrderNumbers.dfy`, `Decimals.dfy` | version precedence, purchase order numbering, digit strings of any length |
| `LoginLimiter.dfy` | the failed-login limiter |

`dafny verify dfyconfig.toml` checks everything.

## How the protocols are modelled

Objects whose methods change fields are classes (`Updater.Engine`, `Inventory.Ledger`,
`ReceiptValuation.PurchaseOrder`, `Commercial.Register`, `Migrations.Database`,
`Documents.Store`, `Idempotency.RetriablePostSender`, `Idempotency.Server`,
`LoginLimiter.FailedLoginLimiter`); their methods are proved against functions on values, and the
results about whole runs are lemmas about those functions. Protocols with several parties are
state machines: `Step` lists the atomic steps, `Next` what each does, `Reaches` the runs, and an
invariant kept by every step gives the results about all runs. A party that stops taking steps is
one that crashed.

The updater is a class with one primitive, `Engine.Do`: one durable step, which succeeds, fails
with or without having taken effect, or is followed by a crash, after which a running program may
have changed DATA and the configuration. What happens is a script given to the engine, so a
statement about `Run` is a statement about every pattern of failures and crashes. Every moment is
recorded in `moments`, and `EveryMomentIsSafe` and `NoRestoreAfterTheOutcome` speak about each of
them; `Lifetime` strings any number of runs together.

Assumptions: writing, renaming, linking and deleting one file or writing one status file is
atomic; a hash identifies its content; job identifiers are fresh; file identities and process
numbers are not handed out twice while they are recorded; nobody but the updater changes the
program files; nobody starts the program between the updater's stop and its own start; every
started program honours the barrier; one database transaction is one step, and a failed one
leaves nothing behind.

Nothing is assumed about a start check beyond what it looks at: health, version and process. What
is assumed of programs is `Updater.Careful`: they lose no acknowledged write that is there and
acknowledge none that is not. Even that is not assumed while a restore of DATA may still follow:
then a program may do anything to the DATA that the snapshot is of. The one exception is the new
version's launch in `starting`. If it passes its start check, its migrations are trusted to have
kept what was there, for nothing in the updater compares DATA before it persists `verified`. That
every acknowledged write is there after a rollback is therefore a result about backup and restore.

## Findings

Four properties that one would expect do not hold of the code. Each is kept as the code has it,
with runs that show it and the exact condition under which it holds.

- **Cleanup can delete the backup that a pending update needs** (`updater/engine.go:174-181`).
  When `transaction.json` cannot be read, nothing is kept. State files above 8 MiB are never read
  (`updater/storage.go:19-25`), and the transaction contains the snapshot, so it crosses that
  limit before `snapshot.json` does. `Updater.OversizedTransactionLosesItsBackup` is such a run for
  any system ready for its first update and any such sizes: an installation cut short behind its backup could
  be rolled back, and the next run that only checks for updates deletes the backup.
  `Updater.Engine.Run` says that an undisturbed check-only run leaves the backup alone if and only
  if the transaction is short enough to be read, and deletes every backup otherwise. An applying
  run does nothing at all about a transaction it cannot read, so until somebody removes the file
  no update is installed and none is undone. A snapshot that is itself too long cannot be restored
  (`Updater.KeptBackupMayBeRestored`).
- **An upload's cleanup can delete a file that another upload commits**
  (`backend/app/features/documents.py:431-441, 1231-1243`). The rollback gives up the database
  lock before the stored file is deleted, the delete compares size and hash, not identity, and
  nothing looks at the file again before a commit. The delete can come after the other upload's
  commit (`Documents.CleanupCanDeleteACommittedFile`) or before it
  (`CleanupCanDeleteAheadOfTheCommit`: at the time of the delete no version is committed at all);
  both are runs for any name and content. `FilesStayExactlyWhen` is the exact condition over all
  runs: every committed version has its file at every moment if and only if no cleanup deletes a
  file of another upload that has committed or is still going to. `FileIsLostExactlyWhen` is the
  same for one step. `PatientRunsAreGuarded` shows that it cannot happen if no upload begins while
  a cleanup is outstanding.
- **A rejected retry can still take effect** (`frontend/src/api.ts:289-293`). A definitive 4xx
  drops the pending entry even when it answered a retry whose first copy is still under way;
  `Idempotency.RejectedRetryMayStillTakeEffect` is such a run. What the client can go by is how
  often it has sent the key: `DroppedKeyIsDeadExactlyWhenSentOnce` says that the dropped key has
  had no effect and can have none, in every run that looks the same to the client, if and only if
  it was sent once. It speaks of networks that copy nothing and of rejections that come from the
  server; a network that copies requests can deliver one after any rejection.
- **A project can have collected more than it has contracted**
  (`backend/app/features/commercial.py:1342-1426`). Terminating a contract takes its allocation
  out of the contracted amount and leaves its receipts in the collected amount
  (`Commercial.TerminationLeavesCollections`). `BoundBreaksExactlyWhen` lists the requests that
  lead from a state within the bound to one beyond it: the termination of a contract in force
  that the collections lean on, and a receipt for more than the contracts in force add up to,
  which takes receipts on an ended contract and room on another (`ReceiptCanBreakTheBound`). Over
  whole runs `BoundHoldsThroughoutExactlyWhen` says that the bound holds throughout if and only if
  no request is one of these. For each contract by itself the bound always holds.

## Model

| member | source | states |
|---|---|---|
| Updater.EveryMomentIsSafe | updater/transaction.go:237-350 | over every run of install, rollback and recovery: whenever business writes are admitted the recorded programs are all old or all new; whenever no restore is still to come, so whenever writes are admitted and after every rollback, no acknowledged write is missing from DATA; while a restore may follow, the barrier is closed and no write is in flight |
| Updater.NoRestoreAfterTheOutcome | updater/transaction.go:455-510 | once verified, complete or rolled back has been persisted for a job, no later moment of any run is one from which its DATA can be restored |
| Updater.InvariantIsSafe | backend/app/features/updates.py:182-211 | the invariant of the world implies that admitting writes is safe: no mix of programs, no restore to come, every acknowledged write present |
| Updater.FreshSystemHolds | updater/transaction.go:469-478 | a system never updated before satisfies the invariant, whatever its programs and DATA |
| Updater.EnvironmentKeeps | backend/app/features/updates.py:182-211 | a program at work between two steps, admitting writes only while the barrier is open and losing none, keeps the invariant; while a restore may follow and it has not passed its start check it may even ruin the DATA of the snapshot |
| Updater.InterludeKeeps | backend/app/features/updates.py:182-211 | so does anything that programs do between two runs of the updater, none of them trusted with anything |
| Updater.StartedKeeps | updater/transaction.go:301-303 | the new version, launched in `starting` on complete DATA and trusted with its migrations, leaves no acknowledged write missing |
| Updater.SaveKeeps | updater/transaction.go:37-39 | persisting a transaction state keeps the invariant under exactly the conditions listed for each state |
| Updater.OpenKeeps | updater/transaction.go:40-42 | the barrier may be opened only when no restore may follow |
| Updater.ProgramKeeps | updater/transaction.go:286-293 | program files may change only while the persisted state is replacing or restoring |
| Updater.DataKeeps | updater/transaction.go:407-427 | DATA may be overwritten only while the persisted state is restoring and nothing runs |
| Updater.BackupsKeep | updater/transaction.go:511-548 | backups may come and go as long as the one a pending transaction needs is untouched or counted as lost |
| Updater.RestoredHasEveryWrite | updater/transaction.go:351-444 | a completed restore has every business write that was acknowledged for the DATA it restored |
| Updater.EndStatesAgree | updater/transaction.go:402-444 | two restores of one snapshot, whatever interrupted them, end with the same DATA, programs and configuration; a program file the snapshot does not record stays as it was |
| Updater.EndStateReached | updater/transaction.go:402-444 | what a complete restore ends in is determined by the world it began in and the snapshot, whatever happened on the way |
| Updater.Engine.RecoverRepeatedly | updater/transaction.go:402-510 | recovery cut short anywhere, any number of times: the restore can still be entered again, or one has ended in exactly the DATA, programs and configuration that a single uninterrupted restore of the world at the beginning ends in; once one recovery is undisturbed, and the transaction can be read in every state, a restore has ended |
| Updater.ChecksSurvive | updater/transaction.go:351-401 | after any part of a restore the checks it began with still hold, so it can be entered again |
| Updater.KeptBackupMayBeRestored | updater/transaction.go:351-401 | a pending transaction whose backup was not deleted can be restored if and only if the snapshot can be read and the DATA location and its root identity are what it says |
| Updater.SnapshotCovers | updater/transaction.go:165-236 | a snapshot taken of the stopped system contains every acknowledged write to its DATA |
| Updater.RestoredMaySettle | updater/transaction.go:455-460 | after a completed restore the old programs are in place and every acknowledged write is there, in the restored DATA because the snapshot covers it and elsewhere because nothing touched it, so the rollback may be persisted |
| Updater.Engine.Do | updater/storage.go:35-96 | one durable step leaves the world before or after it, as the event in store says, followed by what the running program does if that is possible; a crashed process takes no more steps; the invariant and the record of all moments are kept |
| Updater.Engine.CopyInventory | updater/transaction.go:128-153 | success means that the target holds exactly the files and directories asked for; nothing but the target changes in any case |
| Updater.Engine.BackUp | updater/transaction.go:165-236 | success means a persisted snapshot of exactly the DATA, programs and configuration in front of it, with an equal backup behind it, and no trace of the job before; it comes about without failures when there is a main program and no such trace; DATA, programs and configuration never change |
| Updater.Engine.CheckRestore | updater/transaction.go:351-401 | the checks pass exactly when the snapshot, its backup, the DATA location and the root identity agree; nothing is changed |
| Updater.Engine.SaveTx | updater/transaction.go:37-39 | each state is persisted only under its condition; failure leaves the old or the new transaction on disk |
| Updater.Engine.OpenBarrier | updater/transaction.go:40-42 | opens the barrier only when no restore may follow |
| Updater.Engine.StopServices | updater/transaction.go:267-272 | success means that nothing runs and no write is in flight, with everything on disk as it was |
| Updater.Engine.StartServices | updater/transaction.go:301-303 | success means that a program runs and has answered its start check, which says nothing about DATA; only in `starting` does it count as trusted; the updater's own records are unchanged in any case |
| Updater.Engine.RestoreData | updater/transaction.go:407-427 | success means DATA equal to the snapshot; DATA elsewhere, the root identity and restore's checks never change |
| Updater.Engine.RestorePrograms | updater/transaction.go:432-436 | success means every recorded program equal to its backup; unrecorded ones never change |
| Updater.Engine.RemoveEntries | updater/transaction.go:412-422 | success means an empty DATA directory; nothing but that directory changes in any case |
| Updater.Engine.RemoveBackups | updater/transaction.go:537-548 | the backup to keep is untouched; success means every other recognised one is gone |
| Updater.Engine.InstallStopped | updater/transaction.go:273-315 | from the stopped system on, success means complete for this job and manifest, and comes about undisturbed when everything needed is at hand; failure is explained as for `Install`, never by the services still running |
| Updater.Engine.Reopen | updater/transaction.go:490-502 | from a persisted rollback, success means that the old program has been started under it and has passed its start check, that the old programs are in place with every acknowledged write, and that writes are admitted |
| Updater.Engine.Restore | updater/transaction.go:351-444 | refuses with the world unchanged, always for a committed version, or ends with DATA, recorded programs and configuration equal to the snapshot and the phase complete persisted, or is interrupted with its checks still holding; without a failure it succeeds exactly when the checks hold |
| Updater.Engine.Rollback | updater/transaction.go:445-468 | whatever runs when it begins: if restore's checks hold, a failure-free rollback stops it, restores, starts the old program and admits writes; if they do not, the transaction stays pending; cut short, it leaves a restore that can be entered again or one that is complete |
| Updater.Engine.ResumeUnchanged | updater/transaction.go:316-328 | a failure-free resumption persists the rollback, starts the old program and admits writes; no program file changes in any case |
| Updater.Engine.Commit | updater/transaction.go:329-350 | success means complete with the barrier open |
| Updater.Engine.RecoverPending | updater/transaction.go:469-510 | handled exactly when a step failed, the transaction cannot be read or an earlier run is unfinished; one failure-free pass settles whatever was left behind, with programs still running or not, when the transaction can be read and, for a pending one, restore's checks hold at the recorded moment at which it was read |
| Updater.Engine.Install | updater/transaction.go:237-315 | success means complete with the barrier open for this job and manifest; undisturbed, and with everything it needs at hand, it succeeds. Failed, with `fate` saying how far it went: a failure in the first three steps leaves the programs alone and the transaction to recovery; if the stop fails and nothing after it, the barrier is open and rolled back is persisted; from the stop on the outcome is `Explained`: if no step of the way back failed, the job is given up with the old programs in place, started again and open for writes, exactly if restore's checks hold, and otherwise a restore can be entered again; behind the proof the new programs stay |
| Updater.Engine.WithdrawUnstopped | updater/transaction.go:267-272 | after a stop that failed, the barrier is open and rolled back is persisted, if these two steps succeed; the programs are as they were |
| Updater.Engine.InstallBackedUp | updater/transaction.go:279-315 | behind the backup an installation ends complete, proven, or undone: a replacement or a start that fails is rolled back, and what the rollback makes of the world it finds is stated in full |
| Updater.OneFailureIsUndone | updater/transaction.go:273-309 | if exactly one step failed behind the stop: in front of the first replacement the old program runs again unchanged; after it, unless the new version has changed the configuration, the programs of the beginning are back, started and open for writes if and only if restore's checks hold of the world that was rolled back |
| Updater.Engine.Replace | updater/transaction.go:282-297 | success means that every manifest file is in place and the state is starting, and comes about without failures when the staged files are right; otherwise the transaction can still be rolled back |
| Updater.Engine.StartNew | updater/transaction.go:298-309 | success means that the new version passed its start check in `starting`, that an existing configuration is unchanged and, the migrations of the new version being trusted, that no acknowledged write is missing; without failures it is refused only for a changed configuration |
| Updater.Engine.Conclude | updater/transaction.go:310-315 | success means complete with the barrier open; it comes about without failures; in any case the new programs stay and the transaction is not rolled back |
| Updater.Engine.Begin | updater/transaction.go:257-263 | the transaction is persisted before the barrier closes, with the programs found on record |
| Updater.Engine.Cleanup | updater/transaction.go:511-548 | the backup to keep survives unchanged; without a failure every other recognised backup is gone; transaction, barrier and programs are untouched |
| Updater.Engine.KeepAndCleanUp | updater/engine.go:174-181 | when nothing fails and no program interferes, the backup of the transaction survives if and only if transaction.json is short enough to be read, and otherwise every backup is gone |
| Updater.Engine.Run | updater/engine.go:156-250 | a check-only run leaves transaction, barrier and programs alone, and the backup of the transaction too if and only if it can read it; an applying run without failures settles whatever recoverable work an earlier run left at the recorded moment of its first read, programs running or not, and does nothing about a transaction it cannot read; with nothing left to finish, an applying run installs a newer release and leaves transaction, barrier and programs alone if there is none |
| Updater.Engine.LookAndInstall | updater/engine.go:171-250 | if the release is not newer, or its files are in place already, nothing but old backups is touched; undisturbed, a newer one with everything it needs at hand is installed |
| Updater.TransactionSize | updater/transaction.go:27-39 | transaction.json is longer than the snapshot.json it repeats |
| Updater.OversizedTransactionLosesItsBackup | updater/engine.go:174-181 | for any system ready for its first update and any sizes at which snapshot.json can be read and transaction.json cannot: after an installation cut short the rollback's checks hold, and the next check-only run deletes the backup |
| Updater.Lifetime | updater/engine.go:156-250 | any number of runs cut short anywhere, with programs at work in between: the record of moments only grows, ends with the present world, and every moment in it is safe; if the last run is an undisturbed applying one, it has settled whatever recoverable work it found, or installed a newer release if nothing was left to finish |
| Dispatch.OneInTheEngine | updater/main.go:108-297 | at most one process is inside the engine; a worker there is the one the dispatch names, and its bootstrap is gone |
| Dispatch.HandshakesAreGenuine | updater/main.go:150-218 | a bootstrap is never taken in by handshake files of an earlier run: when it lets go of the lock its own worker has said that it is ready, and when it leaves with an acknowledgement its own worker has found the dispatch under the lock, or is no more |
| Dispatch.UndisturbedHandOver | updater/main.go:108-297 | whatever earlier runs left in the files: a bootstrap and a worker that nobody disturbs get the update into the engine, recorded and alone, and afterwards lock and record are free |
| Dispatch.RunningWorkersAreNotKilled | updater/main.go:176-218 | no step of any other process ends a worker that is inside the engine, and it keeps the lock |
| Dispatch.LiveDispatchIsKept | updater/main.go:108-218 | while a dispatched worker is alive its record changes only when it clears it itself or when a bootstrap that could not read the record writes its own |
| Dispatch.ReadersDoNotOverwrite | updater/main.go:279-290 | if every look can read the dispatch file, no bootstrap ever overwrites it unread |
| Dispatch.RunsKeepInvariant | updater/main.go:108-297 | mutual exclusion, confirmed dispatches and parenthood hold in every reachable state |
| Dispatch.ProcessKeepsLock | updater/main.go:108-297 | a process is in a lock-holding phase exactly when it has the lock, after every step |
| Dispatch.WorkerKeeps | updater/main.go:219-270 | a confirmed worker stays the dispatched one, and runs only after its parent is gone |
| Dispatch.BootstrapKeeps | updater/main.go:108-218 | a bootstrap only deals with, and kills, a worker it started itself |
| Publication.VersionsAreUnique | backend/app/features/files.py:882-975 | under any interleaving, failures and crashes included, no two names in the directory read as the same version, foreign names that happen to read as one included, and every publisher that succeeded finds its own file under its version |
| Publication.VersionsHaveNoGaps | backend/app/features/files.py:882-975 | under any interleaving, a published version is 1, or its predecessor was carried by some entry or reservation at some moment of the run |
| Publication.LonePublisherSucceeds | backend/app/features/files.py:882-975 | and it does get there: whatever was left behind, a publisher whose steps all succeed can always publish |
| Publication.LonePublisherGetsTheNext | backend/app/features/files.py:882-975 | a publisher by itself publishes one more than the largest version among the names it found, or the first number from there on without a reservation left behind; if none was left behind, exactly one more than the largest |
| Publication.OthersKeepTheirEntries | backend/app/features/files.py:1146-1160 | the identity check before each unlink suffices: no step removes an entry that another publisher linked |
| Publication.TargetIsFree | backend/app/features/files.py:927-945 | a publisher past its second look never finds its target name taken |
| Publication.VersionsOnlyGrow | backend/app/features/files.py:893-945 | every retry is with a larger version |
| Publication.LaterPublicationsAreNewer | backend/app/features/files.py:882-975 | a publisher that starts after another has finished gets a larger version |
| Publication.NothingIsLeftBehind | backend/app/features/files.py:988-1033 | a publisher whose cleanups work leaves exactly its file when it succeeds and nothing when it fails |
| Publication.CleansUpAlone | backend/app/features/files.py:988-1033 | a publisher that has failed can always clean up to the end without passing over a cleanup |
| Publication.StepKeepsInvariant | backend/app/features/files.py:882-975 | every step of every publisher keeps versions distinct and ownership as its phase says |
| Publication.NextVersion | backend/app/features/files.py:1247-1253 | the next version is larger than every version among the names, and is 1 or one more than one of them |
| Publication.NamesGiveTheNext | backend/app/features/files.py:1247-1253 | the number the loop finds among the names of the directory is the one the publishers of the state machine look up in the entries |
| Publication.VersionRoundTrip | backend/app/features/files.py:925-927 | the version read out of a published name is the one written into it, whatever the rest of the name |
| Publication.NamesAreDistinct | backend/app/features/files.py:895-927 | different entries have different names |
| Publication.ReservationHasNoVersion | backend/app/features/files.py:32-35 | a reservation is never taken for a published version |
| Documents.CommittedVersionsHaveTheirFiles | backend/app/features/documents.py:349-441 | across failures and crashes at any step, every committed version has its file with its content and the version numbers are exactly 1..n, as long as every cleanup deletes its own file |
| Documents.UndisturbedUpload | backend/app/features/documents.py:349-441 | with n versions committed and the lock free, an upload that nobody disturbs becomes version n + 1 under any name that no version has, whatever residue lies in the directory; the residue is gone and nothing else has changed |
| Documents.LockIsFreed | backend/app/core/database.py:44-58 | whatever fails, the lock is held inside a transaction only, so it is free again when one is over |
| Documents.FailedPublicationLeavesNothing | backend/app/features/files.py:835-880 | a publication that finds a name taken, or fails with cleanups that work, leaves nothing of its own behind and takes nothing of anybody else's away |
| Documents.FileIsLostExactlyWhen | backend/app/features/documents.py:1231-1243 | from any state in which every committed version has its file, a step leads to one in which some does not if and only if it is a cleanup's delete of a committed name or the commit of an upload whose file is gone; in particular reconciliation never does |
| Documents.FilesStayExactlyWhen | backend/app/features/documents.py:349-441 | over all runs, failures and crashes at any step included: every committed version has its file at every moment if and only if no cleanup deletes the file of another upload that has committed or commits later; the version numbers are exactly 1..n in any case |
| Documents.CleanupCanDeleteACommittedFile | backend/app/features/documents.py:431-441 | for any name and content there is a run in which the cleanup of one failed upload deletes what another has committed |
| Documents.CleanupCanDeleteAheadOfTheCommit | backend/app/features/documents.py:387-441 | for any name and content there is a run whose only delete meets no committed version, and after which the committed version has no file |
| Documents.PatientRunsAreGuarded | backend/app/core/database.py:44-58 | if no upload begins while a cleanup is outstanding, every cleanup deletes its own file and nothing committed is ever lost |
| Documents.StepKeepsFiles | backend/app/features/documents.py:583-678 | from states in which every upload has its own file, every step but an unguarded delete keeps the file of every committed version |
| Documents.StepKeepsNumbers | backend/app/features/documents.py:583-592 | every step, unguarded deletes included, keeps the committed version numbers contiguous from 1 |
| Documents.Store.ReconcileVersions | backend/app/features/files.py:374-425 | exactly the residue goes: reservations and files no version refers to; referenced and hidden files stay as they are |
| Documents.Store.AddVersion | backend/app/features/documents.py:349-441 | an upload that may fail at any of its steps, with cleanups that work or not: success appends exactly the next version with its file and leaves nothing else behind; failure leaves rows and committed files as they were, at most residue for the next reconciliation, and nothing new at all if the cleanups work |
| Documents.Store.PublishExact | backend/app/features/files.py:835-880 | publishes under the given name only if reservation and name are free; a failure at any step leaves at most its own two entries, and none if its cleanups work |
| Documents.Store.RecordVersion | backend/app/features/documents.py:387-441 | row and commit together, or the rows as they were and the file deleted if that works |
| Idempotency.AtMostOneEffectPerKey | backend/app/features/api_common.py:67-126 | however often a request is retried, duplicated or delayed, its key takes effect at most once |
| Idempotency.ResubmissionRepeatsTheKey | frontend/src/api.ts:266-281 | for it goes out under the key of the first submission |
| Idempotency.ResubmissionTakesEffectOnce | frontend/src/api.ts:257-299 | a body submitted again after an answer that leaves the outcome unknown, 502 for one, takes effect at most once in all, wherever both copies end up |
| Idempotency.ResolvedMeansExactlyOneEffect | frontend/src/api.ts:284-299 | a send that resolved took effect exactly once and got that effect's answer |
| Idempotency.UndisturbedSend | frontend/src/api.ts:257-299 | a send that nobody disturbs takes effect exactly once, resolves, and leaves nothing pending |
| Idempotency.OneBodyPerKey | frontend/src/api.ts:264-284 | no run sends one key with two bodies or on two paths |
| Idempotency.RecordedKeyNeverRunsAgain | backend/app/features/api_common.py:82-94 | a recorded key never runs again: the same body gets the recorded answer, another body is refused |
| Idempotency.UnknownKeyRuns | backend/app/features/api_common.py:67-126 | a key without a row takes effect when it is delivered, and its row is stored with it |
| Idempotency.NoOtherBodyWhileUnknown | frontend/src/api.ts:266-273 | while the client counts an outcome as unknown, whatever it sends on that path repeats key and body |
| Idempotency.DroppedKeyCanRunExactlyWhileUnderWay | frontend/src/api.ts:289-293 | seen from the network: a dropped key without a row can take effect if and only if a request with it is under way |
| Idempotency.DroppedKeyIsDeadExactlyWhenSentOnce | frontend/src/api.ts:281-293 | what the client can rely on when a definitive rejection makes it drop a key: the key has had no effect and can have none, in every run with the same client history, if and only if it was sent once |
| Idempotency.SentAgainMayBeAlive | frontend/src/api.ts:281-293 | if the key was sent before, the same client history fits a run in which it still takes effect |
| Idempotency.RejectedRetryMayStillTakeEffect | frontend/src/api.ts:289-293 | a run in which a rejected retry is dropped, another body goes out and the first copy then takes effect |
| Idempotency.StepKeepsInvariant | frontend/src/api.ts:253-307 | every step of client, network and server keeps table and effects in one-to-one correspondence and pending entries fitting what was sent |
| Idempotency.RetriablePostSender.Send | frontend/src/api.ts:257-299 | answers and changes the pending entries: joins an attempt in flight with the same body, refuses another body while an outcome is unknown, repeats the kept key for the same body, or starts with the fresh key |
| Idempotency.RetriablePostSender.Settle | frontend/src/api.ts:285-296 | a settled attempt acts only on the entry it belongs to: an error below 400, from 500 up, or 408, 425 or 429 leaves key and body with nothing in flight; success or any other 4xx removes the entry |
| Idempotency.RetriablePostSender.Discard | frontend/src/api.ts:300-305 | drops an entry exactly when none is in flight and the body, if given, is its own |
| Idempotency.Server.RestoreIdempotentResponse | backend/app/features/api_common.py:67-94 | nothing for an unknown key, the stored answer for the same body, a conflict for another |
| Idempotency.Server.Handle | backend/app/features/api_common.py:67-126 | a request takes effect together with its row or not at all |
| JsonSignature.SignatureIsInjective | frontend/src/api.ts:413-458 | accepted values have equal signatures exactly when they are the same JSON value, whatever the order of object keys |
| JsonSignature.RefusedExactlyWhenNotJson | frontend/src/api.ts:413-458 | a value is refused exactly when something inside it is not JSON |
| JsonSignature.PrefixFree | frontend/src/api.ts:413-458 | signatures of different values differ before either ends, whatever follows them |
| JsonSignature.BodyUnique | frontend/src/api.ts:417-419 | an escaped string (section 7 of RFC 8259) ends at its closing quote and determines the string |
| JsonSignature.EscapesByUnit | frontend/src/api.ts:417-419 | the seven short escapes, the four-digit one for every other control and for lone surrogates, and nothing else (section 7 of RFC 8259) |
| JsonSignature.AscendingIsUnique | frontend/src/api.ts:447-450 | ascending listings of the same entries are the same listing |
| JsonSignature.EqualSignaturesSameValue | frontend/src/api.ts:413-458 | equal signatures come from the same value |
| JsonSignature.SameValueEqualSignatures | frontend/src/api.ts:413-458 | the same value has one signature, however its objects list their keys |
| Rounding.RoundRatio | backend/app/features/inventory.py:1578-1581 | the result is the nearest integer to the quotient, and a tie goes up |
| Rounding.LineValue | backend/app/features/inventory.py:1258-1269 | cents for a quantity in thousandths at a unit price, to the nearest cent, a tie going up |
| Rounding.WholeUnitsAreExact | backend/app/features/inventory.py:1258-1269 | whole units cost exactly their price |
| Rounding.ShareWithinWhole | backend/app/features/inventory.py:1150-1161 | a rounded share never exceeds the whole |
| Inventory.DriftAtMostHalfACentEach | backend/app/features/inventory.py:1150-1161 | after n outbound movements the remaining value is within n/2 cents of the exact proportional share, and an empty stock is worth 0 |
| Inventory.OutboundDrift | backend/app/features/inventory.py:1258-1269 | one outbound is off its own proportional share by at most half a cent |
| Inventory.DriftCombines | backend/app/features/inventory.py:1150-1161 | bounds on the drift add up over successive movements |
| Inventory.OutboundCost | backend/app/features/inventory.py:1152-1161 | the cost never exceeds the stock's value and is all of it when the stock runs out |
| Inventory.PostingKeepsBooks | backend/app/features/inventory.py:1193-1255 | a posting that leaves its item sound keeps every balance the sum of its movements and every recorded balance the running sum |
| Inventory.PostedAllShifts | backend/app/features/inventory.py:1052-1104 | posting portions one by one moves each item by the sum of its own |
| Inventory.LinesOfAppend | backend/app/features/inventory.py:1059-1065 | the lines read back for an issue are exactly those stored for it, in order |
| Inventory.LinesOfLater | backend/app/features/inventory.py:1059-1065 | the lines stored for an issue are not affected by lines stored later for others |
| Inventory.Ledger.Post | backend/app/features/inventory.py:1193-1255 | movement and balance change together as specified and keep the books |
| Inventory.Ledger.CreateItem | backend/app/features/inventory.py:133-215 | a new item holds its opening stock at its opening cost, with a movement unless it is empty |
| Inventory.Ledger.CreateAdjustment | backend/app/features/inventory.py:382-455 | inbound at the stated cost, outbound at the moving average; each refusal exactly when its cause is there, with nothing changed |
| Inventory.Ledger.ReverseAdjustment | backend/app/features/inventory.py:499-571 | accepted exactly when the adjustment exists, is active, has the expected revision and the resulting balance is sound and fits; each refusal exactly for its own cause, with nothing changed; accepted, the item is back by what the adjustment did and the adjustment is no longer active |
| Inventory.Ledger.AdjustAndTakeBack | backend/app/features/inventory.py:382-571 | creating an adjustment and reversing it with nothing in between succeeds and gives every item back as it was, and reversing it again is refused with nothing changed |
| Inventory.Ledger.PostReceiptMovement | backend/app/features/inventory.py:856-895 | takes in a batch at its value unless the balance would not fit |
| Inventory.Ledger.PostIssueLine | backend/app/features/inventory.py:1107-1190 | accepted exactly when stock and procurement requirement allow it, each refusal exactly for its own cause, at the moving-average cost |
| Inventory.Ledger.CreateIssue | backend/app/features/inventory.py:592-687 | accepted exactly when every line is covered by what the lines before it leave of stock and requirement and the total fits; then all lines are posted in order at their costs, otherwise nothing changes |
| Inventory.Ledger.PutBack | backend/app/features/inventory.py:1066-1104 | accepted exactly when every balance has room; then the portions are posted one by one at their values, otherwise nothing changes |
| Inventory.Ledger.ReverseIssue | backend/app/features/inventory.py:1052-1104 | accepted exactly when the issue exists, has not been reversed and every balance has room; then every line comes back at the cost it was issued at, otherwise nothing changes |
| Inventory.Ledger.TakeBack | backend/app/features/procurement_extensions.py:1900-1968 | accepted exactly when the stock can give the batches back; then they are posted out at their booked values, otherwise nothing changes |
| Inventory.Ledger.Perform | backend/app/features/inventory.py:1193-1255 | no request of any kind removes an item, a movement, an issue or a stored line, or stores a line for an issue that was there before |
| Inventory.Ledger.IssueAndReverse | backend/app/features/inventory.py:592-687 | an issue, any requests to the ledger, and the reversal: the issue posts its stored lines out, what lies between only adds to the books, and the reversal posts the very same lines in again, so every item gets back the quantity and value the issue took |
| ReceiptValuation.ReceiptsAddUpToTheGross | backend/app/features/procurement.py:1498-1530 | over any receipts and reversals the active batches of a line hold the quantity received, are worth at most its gross, exactly the gross when complete, and the exceeded-amount error never occurs |
| ReceiptValuation.AmountsAddUp | backend/app/features/purchase_order_tax.py:17-64 | accepted amounts add up, tax is not negative, the derived amount is the nearest cent, and the gross is what receipts are valued against |
| ReceiptValuation.PriceRefusedExactlyWhen | backend/app/features/purchase_order_tax.py:9-64 | a price is refused exactly for a rate above 100 %, a unit cost that is not the quoted one without tax to the nearest cent, or an amount that does not fit; the amount it is quoted in is the quantity's share to the nearest cent, and without a rate there is no tax |
| ReceiptValuation.BatchWithinRemainder | backend/app/features/procurement.py:1520-1530 | a batch is worth between nothing and what is left, exactly what is left when it closes the line, and otherwise its nearest share unless capped |
| ReceiptValuation.ReceiveLineRefusals | backend/app/features/procurement.py:1163-1180 | a line is refused exactly for naming nothing or asking too much |
| ReceiptValuation.AcceptedExactlyWhenItFits | backend/app/features/procurement.py:1149-1216 | a receipt of any number of lines is accepted exactly when it names lines of the order and asks none for more than is outstanding, all in all; then each of its lines is a batch, counts on its order line and, on a line without a fixed gross, is worth its share of the unit cost to the nearest cent |
| ReceiptValuation.RefusedForItsFirstMisfit | backend/app/features/procurement.py:1164-1174 | a refused receipt is refused for the first line that names nothing or asks too much |
| ReceiptValuation.CreateReceiptKeeps | backend/app/features/procurement.py:1149-1216 | a whole receipt keeps quantities and values in step |
| ReceiptValuation.ReverseKeeps | backend/app/features/procurement_extensions.py:1971-1980 | so does the reversal of any batch |
| ReceiptValuation.ReceiptTakenBack | backend/app/features/procurement_extensions.py:1971-1980 | taking a receipt and reversing it with nothing in between leaves every line, and the quantity and value that count for it, as they were |
| ReceiptValuation.BatchIsCovered | backend/app/features/procurement_extensions.py:1971-1980 | when a batch is given back its line still holds at least that quantity, so the balance error never occurs |
| ReceiptValuation.TotalsCompareLineByLine | backend/app/features/procurement.py:2007-2029 | comparing order totals is comparing line by line, for received and for untouched orders |
| ReceiptValuation.ReceivedOrderIsWorthItsGross | backend/app/features/procurement.py:2007-2029 | the stock of an order priced with tax is worth its gross total exactly if every line is worth its own gross, and that is so when the order is received |
| ReceiptValuation.PurchaseOrder.TakeReceipt | backend/app/features/procurement.py:1112-1216 | accepted exactly when the order is no draft, the receipt fits and the stock takes every posting; then all its lines arrive and the order is received exactly if every line is complete; refused for one cause at a time, with nothing changed |
| ReceiptValuation.ReceiptRefusalsExclude | backend/app/features/procurement.py:1120-1174 | there is at most one cause for refusing a receipt, and none for one that is accepted |
| ReceiptValuation.PurchaseOrder.ReverseReceipt | backend/app/features/procurement_extensions.py:985-1022 | gives back every batch of the receipt, so that each line holds what its remaining active batches add up to, with the status confirmed exactly if nothing is left and received exactly if all is; or nothing changes |
| Commercial.CollectionsNeverExceedTheContract | backend/app/features/commercial.py:1623-1661 | from an empty database, over all requests: contracts in force are fully allocated, no allocation is overdrawn, and no contract collects more than its total |
| Commercial.RequestKeepsInvariant | backend/app/features/commercial.py:651-1125 | every accepted request keeps the invariant of contracts, allocations and receipts |
| Commercial.LockedContractsAreFixed | backend/app/features/commercial.py:694-750 | once a contract has left draft, no request changes its total or its allocations |
| Commercial.DraftsHaveNoReceipts | backend/app/features/commercial.py:1725-1747 | no draft's allocation has a receipt, so replacing allocations is never refused for one |
| Commercial.ReplacementKeeps | backend/app/features/commercial.py:1725-1747 | deleting and inserting a draft's allocations, identifiers reused included, keeps the invariant |
| Commercial.StatusChangeKeeps | backend/app/features/commercial.py:804-835 | a contract may change status as long as it stays locked and is fully allocated when in force |
| Commercial.NewReceiptKeeps | backend/app/features/commercial.py:1623-1661 | a receipt within the remaining capacity keeps the invariant |
| Commercial.VoidKeeps | backend/app/features/commercial.py:1100-1123 | so does voiding one |
| Commercial.ResolvedIsEffective | backend/app/features/commercial.py:1558-1620 | a receipt only lands on an allocation of its project under a contract in force, the one asked for if one was |
| Commercial.ReceiptAnswers | backend/app/features/commercial.py:1558-1650 | with no allocation requested a receipt is booked only if the project has exactly one under a contract in force: required if there is none, ambiguous if there are two; a requested one is invalid exactly if it is not among them; the amount is exceeded exactly above what is left |
| Commercial.VoidAnswers | backend/app/features/commercial.py:1064-1123 | a receipt is voided exactly if it exists, has the expected revision and is active, each refusal for its own cause |
| Commercial.TransitionAnswers | backend/app/features/commercial.py:782-841 | a transition is refused exactly for the first of its conditions that fails: existence, revision, one of the four moves, and for signing both dates and all of the total shared out; otherwise only status and revision change |
| Commercial.UpdateAnswers | backend/app/features/commercial.py:651-780 | an update is refused exactly for the first of its conditions that fails; a draft becomes what the payload says, and past draft nothing but the revision changes |
| Commercial.CreateAnswers | backend/app/features/commercial.py:539-570 | a contract is created exactly if one of its shares is for the project, as a draft with exactly the shares of the payload |
| Commercial.OverviewByRows | backend/app/features/commercial.py:1366-1377 | the row-by-row totals are the sums per milestone and the allocated sum |
| Commercial.OverviewByGroups | backend/app/features/commercial.py:1378-1392 | the grouped query gives the same totals |
| Commercial.MilestonesShareTheTotal | backend/app/features/commercial.py:1378-1392 | the milestones share out the allocated total |
| Commercial.ReceiptsByAllocation | backend/app/features/commercial.py:1366-1377 | summing a project's receipts is summing over its allocations |
| Commercial.CollectedWithinContracted | backend/app/features/commercial.py:1342-1426 | in particular, without receipts on terminated contracts the collected amount stays within the contracted amount |
| Commercial.WithinExactlyWhenCovered | backend/app/features/commercial.py:1342-1426 | after any requests a project has collected no more than contracted if and only if what it holds under ended contracts fits into the room left under those in force |
| Commercial.BoundBreaksExactlyWhen | backend/app/features/commercial.py:1342-1426 | from a state within the bound, exactly two kinds of accepted requests lead beyond it: ending a contract in force whose share the collections need, and a receipt for more than what the contracts in force leave |
| Commercial.BoundHoldsThroughoutExactlyWhen | backend/app/features/commercial.py:1342-1426 | over all requests to an empty database: a project never has collected more than contracted if and only if no request is one that breaks the bound |
| Commercial.ReceiptCanBreakTheBound | backend/app/features/commercial.py:939-1010 | a state within the bound in which an accepted receipt breaks it |
| Commercial.TerminationLeavesCollections | backend/app/features/commercial.py:1342-1426 | a run after which a project has collected 100 and contracted nothing |
| Commercial.Register.Create | backend/app/features/commercial.py:539-570 | answers and changes the tables as specified and keeps the invariant |
| Commercial.Register.Update | backend/app/features/commercial.py:651-780 | the same for updates, and never the refusal for a referenced allocation |
| Commercial.Register.Transition | backend/app/features/commercial.py:782-841 | the same for transitions, signing requirements included |
| Commercial.Register.Receive | backend/app/features/commercial.py:939-1010 | accepted exactly when there is one allocation to book on and the amount is within what is left of it; each refusal exactly for its own cause; then the receipt is booked on that allocation and nothing else changes |
| Commercial.Register.Void | backend/app/features/commercial.py:1064-1123 | the same for voiding |
| Commercial.Register.ReplaceAllocations | backend/app/features/commercial.py:1725-1747 | the contract's rows are replaced by the new shares under fresh identifiers, all others kept in order |
| Commercial.Register.Remaining | backend/app/features/commercial.py:1623-1650 | the capacity of an allocation is its amount less its active receipts, which is never negative |
| Migrations.EachMigrationTakesEffectOnce | backend/app/core/migrations.py:218-251 | however many processes migrate, stop and crash: every statement of every recorded migration took effect exactly once, nothing else did, finished processes leave every file recorded, and no migration is reported twice |
| Migrations.UndisturbedMigration | backend/app/core/migrations.py:28-72 | whatever other processes left unfinished: once nobody has the write lock, a new process that nobody disturbs records exactly the missing files, in file order, and reports them |
| Migrations.SaneLedgerStaysSane | backend/app/core/migrations.py:42-57 | a ledger that is a filename prefix but for the safe backfills stays one at every moment |
| Migrations.DriftedLedgerIsNeverTouched | backend/app/core/migrations.py:38-57 | every process refuses a drifted ledger and leaves it alone |
| Migrations.FreshLedgerIsAPrefix | backend/app/core/migrations.py:59-72 | a fresh database records the files in exactly their order |
| Migrations.CommitKeepsExactlyOnce | backend/app/core/migrations.py:234-248 | at a commit the migration is not yet recorded, so its row and its effects are added exactly once |
| Migrations.RecordingOpensNoGap | backend/app/core/migrations.py:42-57 | recording a file behind recorded predecessors opens no gap |
| Migrations.StepKeepsInvariant | backend/app/core/migrations.py:28-72 | every step of every process keeps the invariant and never shortens the ledger |
| Migrations.Database.InPrefixOrder | backend/app/core/migrations.py:38-57 | the drift check accepts exactly the sane ledgers |
| Migrations.SaneExactlyWhen | backend/app/core/migrations.py:38-57 | a ledger is sane exactly if it names known files and a file is missing in front of a recorded one only if it is one of the two backfills |
| Migrations.Database.ApplyOne | backend/app/core/migrations.py:218-251 | statements and ledger row together or not at all; skipped exactly when already recorded, failed exactly when it is not and a statement, or the row, raises |
| Migrations.Database.Apply | backend/app/core/migrations.py:28-72 | refuses exactly a drifted ledger, untouched; breaks exactly if some missing file raises, with the missing files in front of the first such one recorded; otherwise records and reports exactly the missing files, in file order |
| Migrations.UnrecordedAreTheMissing | backend/app/core/migrations.py:59-72 | what is still to be done is each missing file once, in file order |
| Versions.CompareVersion | updater/version.go:42-91 | the loops with early return compute the specified comparison |
| Versions.ComparesBySemVer | updater/version.go:42-91 | on valid versions the text comparison is the precedence of section 11 of Semantic Versioning 2.0.0 |
| Versions.NaturalOrderIsNumeric | updater/version.go:31-41 | compareNatural is the order of the numbers for digit strings of any length |
| Versions.PrecedenceIsATotalOrder | updater/version.go:42-91 | precedence is a total order on parsed versions, transitive across numeric and alphanumeric identifiers |
| Versions.ComparisonIsATotalPreorder | updater/version.go:42-91 | the comparison is a total preorder on valid versions |
| Versions.TiesDifferInBuildOnly | updater/version.go:42-91 | two valid versions compare equal exactly when they agree up to build metadata |
| Versions.IsNumeric | updater/version.go:5-15 | the loop recognises exactly the non-empty digit strings |
| OrderNumbers.NextPurchaseOrderNumber | backend/app/features/purchase_order_numbers.py:24-39 | the number carries the prefix and one more than the largest sequence used with it, for suffixes of any length, written with three digits or as many as it needs |
| OrderNumbers.NextIsUnused | backend/app/features/purchase_order_numbers.py:24-39 | no order already carries that number, letter case ignored |
| OrderNumbers.FoldsTheAlphabet | backend/app/features/purchase_order_numbers.py:24-30 | letter case is ignored for the 26 letters and nothing else |
| OrderNumbers.IncrementAddsOne | backend/app/features/purchase_order_numbers.py:42-48 | stripping nines, bumping a digit and appending zeros adds exactly one |
| OrderNumbers.CanonicalOrderIsNumeric | backend/app/features/purchase_order_numbers.py:36-38 | length first, then text is the order of the numbers |
| Decimals.TrimmedOrderIsNumeric | backend/app/features/purchase_order_numbers.py:37-37 | for digit strings without leading zeros, length-then-text order is numeric order and equal value is equal text |
| Decimals.TextOrderIsLexicographic | updater/version.go:31-41 | the text order is the lexicographic one: a proper prefix comes first, otherwise the first difference decides |
| LoginLimiter.AtMostFiveFailuresPerWindow | backend/app/features/auth.py:60-119 | over all interleavings with a monotone clock: live failures plus attempts in flight never exceed five, and any six successive failures without a success span the whole window |
| LoginLimiter.PruneRemovesExactlyTheExpired | backend/app/features/auth.py:104-110 | dropping from the front of the deque removes exactly the expired entries |
| LoginLimiter.RefusedOnlyAtTheCap | backend/app/features/auth.py:67-75 | an attempt is refused exactly when five live failures or attempts are on record |
| LoginLimiter.FiveAtOnce | backend/app/features/auth.py:67-75 | of any number of attempts started at once on a fresh host exactly the first five are granted |
| LoginLimiter.AttemptsAreBalanced | backend/app/features/auth.py:67-102 | over all calls, the attempts in flight are those granted less those finished, so each granted attempt is finished once |
| LoginLimiter.CallKeepsInvariant | backend/app/features/auth.py:67-119 | every call keeps the bound and the spacing of failures |
| LoginLimiter.FailedLoginLimiter.TryStartAttempt | backend/app/features/auth.py:67-75 | granted exactly when unexpired failures and attempts in flight are fewer than five, and then there is one more in flight; the host keeps its unexpired failures, other hosts are untouched |
| LoginLimiter.FailedLoginLimiter.RecordFailure | backend/app/features/auth.py:77-85 | if an attempt is in flight there is one less, and the unexpired failures with this one; otherwise nothing changes |
| LoginLimiter.FailedLoginLimiter.RecordSuccess | backend/app/features/auth.py:87-90 | if an attempt is in flight there is one less, and no failure is left; otherwise nothing changes |
| LoginLimiter.FailedLoginLimiter.CancelAttempt | backend/app/features/auth.py:92-94 | if an attempt is in flight there is one less, and the failures are as they were; otherwise nothing changes |
| LoginLimiter.FailedLoginLimiter.ActiveFailures | backend/app/features/auth.py:96-110 | returns and keeps exactly the unexpired failures, forgetting an empty deque |

## Left out

- Hash computation, zip extraction, downloads, mirrors and release checks: what a run finds is a parameter of `Updater.Engine.Run`.
- Checks for links and unsafe path components in the updater, and the work directories that cleanup also removes: they only add refusals.
- The updater's status files, messages and progress numbers: each such write is a step that may fail and changes nothing else.
- Loss of power in the middle of one file write: such a write is atomic by replacement.
- Version detection by starting the old program before an update: it is part of what the program may do at any time.
- `UpdateManager.start` and its status file, except for the barrier and the count of writes in flight: only refusals in front of the updater.
- Updater.Engine.Install: does not say which failure leads to which message.
- Updater.Engine.StartNew: that the new version's migrations keep every acknowledged write is trusted; the updater has no check of DATA that could establish it.
- Updater.Engine.Do: the remains of an interrupted deletion of a backup are arbitrary rather than a part of what was there.
- Timeouts of the hand-over are steps that may happen at any time in `Dispatch`; the copy of the updater and its hash check are left out.
- Random tokens in `Dispatch`: a handshake is known by its job and the process number in it, and removing an old one is taken to work.
- Publication of files under exact names by several publishers at once: uploads hold the database lock while they do it, as `Documents` has it.
- Sanitising and truncating file names, staging of uploads, and the directory binding against replaced directories.
- Documents.Store.AddVersion: one request by itself; interleavings are the state machine's part.
- The idempotent replay of an upload, and document titles, archiving and downloads.
- The multipart sender, which differs from the modelled one in how it describes files.
- Numbers in JSON values are the text that JSON.stringify writes for them; cyclic values and property descriptors are not part of the model.
- Request parsing, authorisation, pagination and response formatting everywhere; inputs are normalised values.
- Inventory.Ledger.CreateIssue: nothing is said about later edits of a procurement requirement, which drafts still allow.
- Which inventory item a goods receipt is booked on, and the rows of the stock in one transaction with the order: whether the stock accepts is a parameter.
- Invoices, supplier payments, quotes, payment terms, contract notes and receipt notes: single-row changes.
- Parsing of migration files into statements: a migration is its number of statements.
- The pinyin initials in order numbers: the prefix is a parameter.
- Engineering, acceptance, after-sales, workforce, dashboards, backups and the user interface: short transition tables and sums.
