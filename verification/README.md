# Shipment imports, modelled and proved in Dafny

The service takes an uploaded workbook of shipments, stores a job for it, and has background workers turn its
rows into shipments or row errors. Four kinds of processes work on the same tables without trusting one another:
API calls that create jobs, publishers that turn outbox events into broker messages, Celery workers that claim a job
under a fresh token and write it chunk by chunk, and a watchdog that takes jobs away from workers that stopped
reporting. Messages may be delivered twice or late, processes may die between any two transactions, and two imports
may compete for the same shipment code.

The project has three layers, which share one definition of every table row and of every guarded update.

**The specification of a file.** `Verdicts` says which rows of a file become shipments and which become errors;
`Rowwise` is the row-by-row reading of it. `Workbook` and `RowParsing` say what a data row is and what parsing makes
of it, and `RowMeaning` says the latter column by column. `Jsonb`, `Search` and `Pagination` hold the three pure pieces at the edges.

**The protocol.** `Lifecycle` is one import as a transition system whose steps are committed transactions, broker
deliveries and failures; the other imports appear as the set of codes they hold at that moment. A chunk's lookup and
its insert are separate steps, so anything may commit in between. `LifecycleInvariant`, `Accounting` and
`LifecycleRuns` prove the invariants; `Outcomes`, `Fencing`, `Stranding`, `Dispatch` and `WholeFile` draw the
conclusions over all reachable states and all runs; `Fleet` puts any number of imports side by side over one table.
`CreateProtocol` is the same for concurrent creation calls.

**The services and repositories.** `Database` is a session over the tables in its `World`. A world is everything that is
not for a process to decide, turn by turn: what the others make of the tables, who locks the import's row, which faults
strike and where, whether the file can be read on, which rows the database refuses for another reason than their code,
whether the broker takes a message, and the time. It is a fixed but arbitrary constant, so nothing that a service does can
choose it, and a service cannot blame on it what it did itself. `OtherProcesses` is a turn of the others; it is called
wherever the code lets others in. `Repositories`, `OutboxRepositories`, `RowValidation`, `ProcessImport`,
`PublishOutbox`, `RecoverStaleImports`, `CreateImport` and `Tasks` are the classes and loops of the source, proved against
the first two layers. What a worker relies on while others run is itself proved of the protocol
(`Fencing.OthersCanBeReliedOn`, `Dispatch.HolderCanRelyOnOthers`, `CreateImport.LockCanBeReliedOn`).

A worker keeps a journal (`Journal`, `RunJournal`). Its entries are the turns of the world and the worker's own
transactions, nothing else. The place where the worker stands and what the world has for the moment decide which
transactions it may take (`Journal.Ready`) and what they make of the tables (`Journal.AfterStep`). Each of them is a step
of the protocol (`Journal.StepTaken`, `Refinement`; `OutboxRefinement` does the same for publishers and watchdog), and the
place where the journal ends is the one that its last step has earned. In a world that keeps to the lifecycle
(`Journal.Lawful`), the whole delivery of a message is then a run of the protocol, and what is proved of the protocol's
reachable states holds of the tables it leaves, however it ends (`Journal.DeliveryIsARun`, `Tasks.ProcessImportTask`). A
quiet world keeps to it, and so does one whose watchdog takes the import away (`QuietWorldIsLawful`,
`WatchdogIsLawful`). `Undisturbed` says what it takes to keep a worker from completing the import that it has claimed:
without a fault, an unreadable file, the loss of the import, a refusal by another constraint, or a collision whose code
is gone before it is looked up, it completes it.

`dafny verify dfyconfig.toml` checks everything.

## Assumptions

- Every uuid4 is new: a claim token, an outbox token or an identifier was never used before.
- The configuration does not change while an import lives, so a job's `max_attempts` is the configured one. There are
  four retry delays and both maxima are positive, as the settings demand.
- Transactions run at READ COMMITTED, PostgreSQL's default: each statement sees what was committed before it. A creation
  call that waited for the fingerprint lock must see the winner's row in the lookups that follow; under one snapshot per
  transaction it would not, and one fingerprint could get two jobs.
- A process learns whether its commit succeeded. A commit that fails leaves nothing behind.
- The broker keeps a message until it is acknowledged and hands it out again if its worker is lost; it may also
  duplicate it.
- Celery sends a retry exactly when the number of retries does not exceed `max_retries`, and otherwise raises the
  exception. The retry goes to the queue its message came from. If sending it raises it was not sent, and the message is
  rejected without being requeued. A message whose run raises is acknowledged all the same.
- Workers consume the dispatch queue and its dead-letter queue, as the worker command does that names no queue. A
  message rejected in the first goes to the second; one rejected in the second is gone.
- Unique codes are enforced at insertion; a row may be refused for other reasons, and any statement may fail. Both are
  for the world to say. A fault rolls its transaction back, wherever in it it strikes.

## What does not hold

Five promises fail in the code as it is. Each is stated with a run or a value that shows it and with the exact
condition under which it holds.

1. *A pending import always has something that will process it.* It does as long as nothing fails around a claim and
   no message is rejected twice (`Stranding.NoImportIsStranded`): crashes, takeovers, duplicates and database errors
   after a claim never strand it, because Celery's bound then never refuses a retry, and neither does a retry that cannot
   be sent, because the rejected message reaches a worker again through the dead-letter queue (`FirstRejection`, `FirstRejectionAfterRequeue`). In
   general a step strands an import exactly when it gives up the last chance of an unclaimed one
   (`Stranding.StepStrandsExactly`). The code has five ways to do that: the claim skips a row that is locked only by the
   foreign keys of a replaced worker's open chunk (`LockedRowStrands`); the claim's commit fails after `claimed_import`
   was assigned, or an error before the claim is not retried (`FailureAroundClaimForgets`); retries before any claim use
   up Celery's bound without using an attempt (`EarlyRetriesUseUpTheBound`); and the retry of a message that was
   dead-lettered before cannot be sent (`SecondRejectionForgets`). A forgotten import stays pending for ever
   (`ForgottenForGood`), since the watchdog looks only at imports in progress.
2. *Dispatch exhaustion fails only imports whose processing never started.* The guard asks only whether the import is
   pending, so a requeued import that was already worked on fails with that reason, even with a live message for it in
   the queue (`Dispatch.StartedImportFailsAsNeverStarted`); the reason is true exactly for a first attempt
   (`Dispatch.NeverStartedIsTrueExactly`).
3. *An event that cannot be dispatched fails in the end.* With `outbox_max_attempts` above five the index into the four
   delays runs out of range, the outcome of the fifth failure is never stored, and no event ever fails
   (`Outbox.DelaysCoverExactly`, `Dispatch.ExhaustionIsReachableExactly`).
4. *A normalised value can be stored as JSONB.* It can exactly when no surviving number is infinite or not a number
   and no surviving text contains U+0000 (`Jsonb.AcceptedIffClean`). An infinite number does arrive, from a cell with
   `1E999` (`Jsonb.InfiniteNumberIsRefused`). The half about U+0000 is about the normaliser alone: XML has no such
   character, so no worksheet text holds it (`Jsonb.NulTextIsRefused`).
5. *After a collision on the idempotency key the stored job may turn out to be the caller's own.* It never does: the
   collision always ends as a conflict, and the two other branches after the rollback are dead
   (`CreateProtocol.CollisionIsConflict`, `CreateImport.CreateImportService.Insert`).

Two more branches are unreachable and proved so: stale-claim recovery never finds an exhausted event
(`Dispatch.StaleRecoveryOnlyRequeues`), and a heartbeat written in the transaction that has just updated the counters
always finds its row (inside `ProcessImport.ProcessImportService.PersistChunk`).

## Model

| member | source | states |
|---|---|---|
| Stranding.NoImportIsStranded | app/imports/services/process_import.py:44-164 | Along every run without a failure around a claim (row skipped as locked, failed claim commit, error before the claim) and without a second rejection of a message, no retry is made before a claim, Celery's bound refuses none after one, and a pending import has a dispatchable event, a queued message, or a worker that has yet to try its claim or to re-send. |
| Stranding.OnlyDropsStrand | app/workers/tasks.py:23-30 | The same conclusion for every run, whatever fails, in which no step gives up a message unclaimed: errors before a claim and rejections may occur as long as the message comes back. |
| Stranding.StepStrandsExactly | app/imports/repositories/import_claim_repository.py:39-49 | In every reachable state, a step strands the import if and only if it gives up a message, the import is pending, and nothing else is left that could reach a worker. |
| Stranding.ForgottenForGood | app/imports/services/recover_stale_imports.py:44-56 | A pending import without message, process or live event is never acted on again: no step at all is enabled, the watchdog's included. |
| Stranding.FailureAroundClaimForgets | app/imports/services/process_import.py:55-64 | For every configuration, each failure around the claim (commit fails after the assignment, error not retried) forgets an import in some reachable state. |
| Stranding.EarlyRetriesUseUpTheBound | app/workers/tasks.py:23-30 | For every maximum of at least two, retries made before any claim exhaust Celery's bound, and an import attempted once is forgotten. |
| Stranding.FirstRejection | app/celery_app.py:28-47 | From the reachable state in which a worker holds the only message, a retry that cannot be sent leads through the dead-letter queue to a reachable state in which a worker holds it again, with the same retries. |
| Stranding.FirstRejectionAfterRequeue | app/celery_app.py:28-47 | After a requeue too, a retry that cannot be sent leads through the dead-letter queue to a reachable state in which a worker holds the message again and the import can be claimed. |
| Stranding.SecondRejectionForgets | app/celery_app.py:28-47 | For every maximum of at least two, a message that had been dead-lettered and is rejected again, before the claim or after the requeue, forgets an import in some reachable state. |
| Stranding.LockedRowStrands | app/imports/services/process_import.py:274-288 | A replaced worker's open chunk makes the claim of the replacement message skip the row; the message is acknowledged and the import is stranded, then forgotten. |
| LifecycleRuns.InvAlongRun | app/imports/services/process_import.py:44-164 | Every state of every run satisfies the whole invariant: job row, owners, retries, outbox and stored rows. |
| LifecycleInvariant.StepFades | app/imports/repositories/import_progress_repository.py:134-150 | No step of any process makes the row owned by a token that was issued before, and attempts never decrease. |
| LifecycleInvariant.BoxInvKept | app/outbox/services/publish_outbox.py:139-171 | Every step keeps the outbox invariant: attempts are recorded failures, holders remember their event, published events were dispatched. |
| Outcomes.OwnershipIsSound | app/imports/repositories/import_claim_repository.py:51-72 | In every reachable state attempts stay within the maximum, a pending import is claimable and unowned, one in progress has a token and a heartbeat, FAILED means a reason, and at most one worker owns the row and remembers its attempt. |
| Outcomes.RequeuedMayRetry | app/workers/tasks.py:23-30 | Without retries made before a claim, Celery's bound never cuts off the retry of a requeued import. |
| Outcomes.CountersMatchTables | app/imports/repositories/import_progress_repository.py:43-61 | In every reachable state, FAILED and requeued included, the success count is the number of stored shipments, the failed count the number of distinct failed rows, and the total their sum. |
| Outcomes.TablesAreExact | app/imports/services/process_import.py:166-182 | In every reachable state each row of the committed chunks is one shipment made from that row or has an error, never both and never twice; when completed, that is the whole file. |
| Outcomes.OverwriteRefinesIncrement | app/imports/services/process_import.py:85-112 | The sums that completion writes equal the counters that the chunk commits accumulated, corrected chunks included. |
| Outcomes.RetryNeverCollidesWithItself | app/imports/services/row_validation.py:130-137 | An owner's lookups, first or after a collision, find only codes held by other imports. |
| Outcomes.StoredRowsAreRowwise | app/imports/services/row_validation.py:121-212 | In every reachable state the import has stored exactly the row-by-row verdicts of its committed rows for the codes its lookups found, however the other imports' codes changed between lookups, inserts and races; when completed, that is the whole file. |
| WholeFile.CompletedImportIsTheWholeFile | app/imports/services/row_validation.py:105-108 | With the other imports' codes fixed, a completed import stores exactly the row-by-row verdicts of its file, whatever crashes, takeovers, retries and chunk sizes the run had. |
| Fencing.LostStaysLost | app/imports/repositories/import_progress_repository.py:134-150 | A token that does not own the row never owns it again, in any run. |
| Fencing.ReplacedWorkerChangesNothing | app/imports/services/process_import.py:265-288 | Once a worker's token is not the row's, none of its later steps changes the job row, the shipments or the errors. |
| Fencing.OthersCanBeReliedOn | app/imports/services/process_import.py:184-211 | However long a worker pauses: if it owns the row afterwards it owned it all along, and row and tables are as it left them. |
| Fencing.TerminalIsFrozen | app/imports/repositories/import_progress_repository.py:70-113 | Completed and failed imports never change again, in their row or in their stored rows. |
| Fencing.LifeIsBounded | app/imports/repositories/import_claim_repository.py:51-65 | A run changes an import's status at most twice per allowed attempt. |
| Fleet.FleetInvariant | app/db/models/shipment.py:27-28 | With any number of imports over one shipments table, each stays in a reachable state of its own lifecycle and no code is stored twice. |
| Dispatch.AttemptsCountFailures | app/outbox/services/publish_outbox.py:144-171 | An event's attempt count is the number of failures recorded for it, below the maximum while it is alive, equal to it once failed, and known to its holder. |
| Dispatch.StaleRecoveryOnlyRequeues | app/outbox/services/publish_outbox.py:97-116 | In reachable states the exhaustion branch of stale recovery is dead: recovery requeues. |
| Dispatch.PublishedWasDispatched | app/outbox/services/publish_outbox.py:45-57 | An event is published only if a dispatch succeeded under the very claim that published it. |
| Dispatch.LostClaimStaysLost | app/outbox/repositories/outbox_repository.py:81-127 | An event that a claim has lost, or never had, is never held under it again, in any run. |
| Dispatch.ReplacedPublisherChangesNothing | app/outbox/repositories/outbox_repository.py:81-127 | In every run, no later step of a publisher changes an event that its claim no longer holds; if that is the event it had claimed, its later steps change no event and no import. |
| Dispatch.AttemptsNeverDecrease | app/outbox/services/publish_outbox.py:144-165 | In every run events stay and their attempts never decrease, so a recorded failure is never forgotten. |
| Dispatch.HolderCanRelyOnOthers | app/outbox/services/publish_outbox.py:45-57 | However long a publisher pauses: an event that it holds afterwards it held all along, and the event is as it was. |
| Dispatch.SettledForGood | app/outbox/repositories/outbox_repository.py:81-97 | Published and failed events never change again, in any run. |
| Dispatch.ExhaustionIsReachableExactly | app/outbox/services/publish_outbox.py:146-153 | An event can reach FAILED if and only if the configured maximum is at most five. |
| Dispatch.NoEventFails | app/core/settings.py:87-96 | With a maximum above five, every event keeps at most four recorded failures and never fails. |
| Dispatch.NeverStartedIsTrueExactly | app/imports/repositories/import_repository.py:99-116 | Exhaustion changes the import exactly when it is pending, and the recorded reason is true exactly when it was never attempted. |
| Dispatch.StartedImportFailsAsNeverStarted | app/imports/repositories/import_repository.py:99-116 | A reachable state has an attempted import failed as never started while a message for it is queued. |
| Outbox.DelaysCoverExactly | app/outbox/services/publish_outbox.py:146-153 | The delay index is in range at every attempt if and only if the maximum is at most the number of delays plus one. |
| CreateProtocol.CreateImportIsLinearizable | app/imports/services/create_import.py:52-131 | In every interleaving each answered call gets the answer of one atomic check-then-insert at a moment from which it was pending up to its answer; a creation's moment is its commit, and answers change nothing. A call may also die at any point, after its commit too. |
| CreateProtocol.RepeatedRequestFindsTheJob | app/imports/services/create_import.py:57-78 | Once a creation is committed, told to its caller or not, every later call with its key and upload is answered with the job, one with its key and another upload is refused, and none with its upload creates a job or fails to write. |
| CreateProtocol.JobsAreUnique | app/imports/repositories/import_repository.py:50-53 | In every interleaving at most one job has a fingerprint, by the lock alone, and at most one a key; each job has exactly one creation-time intent. |
| CreateProtocol.CollisionIsConflict | app/imports/services/create_import.py:99-118 | A collision on the key always ends as a conflict. |
| CreateProtocol.CallGoesOn | app/imports/services/create_import.py:52-131 | No call is stuck: it can begin at any time, and until its answer it can go on unless another call holds its lock. |
| CreateImport.LockCanBeReliedOn | app/imports/services/create_import.py:55-75 | While a call holds its lock and pauses, the other calls of the protocol only append rows with other fingerprints. |
| CreateImport.CreateImportService.CreateImport | app/imports/services/create_import.py:52-131 | One call, with others in between: its outcome is the atomic one on some table between start and end; a creation adds exactly one row of this call, right after that table, and whatever else is new was added by the turns of the others. A write error comes from the write alone: neither key nor upload was known when the call looked, so a call whose key or upload is stored at its start is never answered with one. There is no reply exactly if the job is committed and reading it back raises. |
| CreateImport.CreateImportService.CheckAndInsert | app/imports/services/create_import.py:73-131 | With the key unknown, the call answers by the lookup of the upload, and inserts only if the upload is unknown too. |
| CreateImport.CreateImportService.Insert | app/imports/services/create_import.py:93-121 | The insert under the lock answers a write error exactly if the write fails, a conflict exactly if the key is taken, and otherwise creates one job with its intent; it never answers with an existing job. |
| CreateImport.CreateImportService.AfterRollback | app/imports/services/create_import.py:101-118 | The answer after a rollback, for every table: write error, conflict or existing job, by what the key lookup finds. |
| CreateImport.JobTable.InsertAndCommit | app/imports/repositories/import_repository.py:28-36 | Job and intent are stored together if the write does not fail and the key is free, and otherwise nothing is. |
| CreateImport.JobTable.SnapshotByKey | app/imports/repositories/import_repository.py:55-71 | The row that has the key, if there is one. |
| CreateImport.JobTable.SnapshotByFingerprint | app/imports/repositories/import_repository.py:73-97 | The newest row with the fingerprint, if there is one. |
| Verdicts.StreamingRefinesFile | app/imports/services/row_validation.py:121-212 | For every way of cutting a file into chunks, with each chunk stored before the next lookup, streaming gives the row-by-row verdicts of the whole file. |
| Verdicts.JudgeIsRowwise | app/imports/services/row_validation.py:145-166 | A row is a file duplicate exactly when an earlier row, valid or not, had its code, and else a database duplicate exactly when the code was found. |
| Verdicts.VerdictOnRow | app/imports/services/row_validation.py:145-200 | Every row adds its own verdict: one shipment of the import with the row's draft, number and values, or one error for each of its issues in their order, under its number and with its normalised values; the issue of a repeated or stored code comes last. |
| Verdicts.JudgeCounts | app/imports/services/row_validation.py:202-212 | Every row counts once as success or failure, and the shipments' codes are distinct, unseen and not found in the database. |
| Verdicts.JudgePartitioned | app/imports/services/row_validation.py:168-200 | Valid rows and rows with errors split the chunk's rows; failures count rows, not errors. |
| Verdicts.ReclassificationIsLaterLookup | app/imports/services/row_validation.py:214-259 | Correcting a result after a collision stores the same rows as if the codes found now had been found by the first lookup; the success count drops exactly when something was found. |
| Verdicts.ReclassifiedRows | app/imports/services/row_validation.py:227-250 | The rows kept are exactly those whose codes are free, and fewer whenever a code was found. |
| RowValidation.RowValidationService.ValidateChunk | app/imports/services/row_validation.py:121-212 | The loop computes the verdicts of the chunk for the codes seen before and the codes its one lookup finds, and remembers all codes of the chunk. |
| RowValidation.RowValidationService.ReclassifyDatabaseDuplicates | app/imports/services/row_validation.py:214-259 | The loop computes the corrected result for the codes stored at that moment, in row order. |
| RowValidation.RowValidationService.Validate | app/imports/services/row_validation.py:110-119 | Collecting the chunks gives the row-by-row verdicts of the workbook, for every chunk size. |
| RowValidation.ValidationAccumulator.AddChunk | app/imports/services/row_validation.py:68-73 | The collected totals, shipments and errors are those of the chunks added so far. |
| RowValidation.DuplicateTracker.RememberCodes | app/imports/services/duplicate_tracker.py:13-14 | The remembered codes are added to those seen. |
| RowParsing.ParseRow | app/imports/services/row_validation.py:275-314 | The loop over the required fields, the date and the rules yields the issues in order and the fields that parsed, as `RowMeaning` reads them column by column. |
| RowParsing.PreparedIsConsistent | app/imports/services/row_validation.py:261-314 | A row has a draft exactly when every required field parsed, a code exactly when its code did, and an issue whenever it has no draft. |
| RowMeaning.DraftOfColumns | app/imports/services/row_validation.py:275-314 | A row has a draft exactly if its seven required columns are there and readable; each field of the draft is what the adapter made of the column with its own name, the date is absent if its column is empty or unreadable, and the code is that of the code column, draft or not. |
| RowMeaning.IssuesOfColumns | app/imports/services/row_validation.py:275-314 | The issues of a row, in their order and with their messages: one for each required column that is missing or unreadable, one for an unreadable date, and one for each rule that a readable value breaks, whatever else is wrong with the row. |
| RowMeaning.ValidRowKeepsTheRules | app/domain/shipment_rules.py:69-118 | A row without issues has a draft with a status of the list, a name of at most 150 characters, a positive weight, a price that is not negative, and a date if its column is not empty. |
| Workbook.XlsxParser.IterChunks | app/imports/parsers/xlsx_parser.py:39-47 | The chunks in order are the data rows, none is empty, and all but the last are full, for every chunk size. |
| Workbook.OneWayToCut | app/imports/parsers/xlsx_parser.py:39-47 | The chunks of a workbook are determined by its data rows and the chunk size, so every attempt processes the same ones. |
| Workbook.DataRowsAreTheNonBlankRows | app/imports/parsers/xlsx_parser.py:80-93 | The data rows are exactly the worksheet rows with a value, under their worksheet numbers. |
| Workbook.DataRowsAreOrdered | app/imports/parsers/xlsx_parser.py:85-93 | Row numbers increase, so no two data rows share one. |
| ProcessImport.ProcessImportService.Run | app/imports/services/process_import.py:44-164 | A run that finishes leaves a completed import that stores the row-by-row verdicts of the workbook for some codes that other imports have stored: every data row is one shipment or has errors, and the counters count them. Failed and requeued ends leave the row accordingly, whatever others did. The run is journalled as the worker's own steps and the turns of the others, from the delivery to where it leaves its message, and that place is the one its end names. A run that finds a claimable row in a world that does not disturb it finishes. |
| ProcessImport.ProcessImportService.ProcessClaimed | app/imports/services/process_import.py:66-112 | With others in between, reset, chunks and completion leave exactly those verdicts stored, or stop with the row as the handlers need it. |
| ProcessImport.ProcessImportService.ClaimImport | app/imports/services/process_import.py:55-64 | The claim transaction takes a claimable row under the token or leaves it; a failed commit leaves it and is noticed after the claim was noted. |
| ProcessImport.ProcessImportService.PrepareForReprocessing | app/imports/services/process_import.py:166-182 | Under the token, counters and rows of earlier attempts are gone together and other imports' rows stay; otherwise nothing changed. |
| ProcessImport.ProcessImportService.ProcessNextChunk | app/imports/services/process_import.py:184-224 | A chunk that is committed extends the stored rows by its verdicts for the codes found, and the tracker by its codes; every code found has been stored, by another import while this worker owns its own. Anything else leaves the stored rows as they were. A fault, lost ownership or an unreadable file stops the worker before the chunk, each with its own trouble; after that its steps are those of the journal, so a collision is looked up and corrected. |
| ProcessImport.ProcessImportService.PersistChunk | app/imports/services/process_import.py:265-288 | Shipments, errors and counts are added together under the token, or nothing is, although the rows are inserted before the guard; a collision is reported exactly if a code is stored or repeated or a row is refused. |
| ProcessImport.ProcessImportService.PersistChunkAfterDuplicateRace | app/imports/services/process_import.py:226-263 | Against any competing inserts the race ends after at most one round more than the chunk's valid rows; what it commits stands for judging the chunk with the codes found, keeps fewer rows, and every code it found has been stored, by another import while this worker owns its own. |
| ProcessImport.ProcessImportService.RaceRound | app/imports/services/process_import.py:238-261 | A round of the race stops without ownership, stores a smaller result that stands for the codes found, collides again with one, or gives up; whatever it stores is in account. |
| ProcessImport.ProcessImportService.ProcessChunks | app/imports/services/process_import.py:85-102 | The worker's own sums are those of the chunks stored since its reset, each judged with codes that other imports have stored. |
| ProcessImport.ProcessImportService.Complete | app/imports/services/process_import.py:104-112 | Completion by an owner writes sums that agree with the tables. |
| ProcessImport.ProcessImportService.HandleOperationalFailure | app/imports/services/process_import.py:290-318 | A database failure requeues an owned import that has an attempt left, fails one that has none, and leaves any other row alone. |
| ProcessImport.ProcessImportService.MarkFailed | app/imports/services/process_import.py:320-340 | Only an owner's import fails, with the given reason. |
| ProcessImport.ProcessImportService.Handle | app/imports/services/process_import.py:115-164 | Each kind of trouble ends the run in its own way and with its own reason, and only an owner's row changes. |
| ProcessImport.WorkbookIsRowwise | app/imports/services/row_validation.py:105-108 | Such tables hold the row-by-row verdicts of the workbook for one set of codes, all found elsewhere. |
| Journal.WalkIsARun | app/imports/services/process_import.py:44-164 | Every kept journal whose turns of the others are steps of the protocol is a run of it: from each reachable state that its start fits, every transaction of the worker is an enabled step, every state is reachable, and the tables are those of the state at every moment. |
| Journal.DeliveryIsARun | app/imports/services/process_import.py:44-164 | In a world that keeps to the lifecycle, the journal of a delivery is such a run from every situation it may begin in, and the counters of the row it ends with count the rows in the tables. |
| Journal.StepTaken | app/imports/services/process_import.py:44-164 | Whatever a worker may do in a situation, with the tables it makes, is an enabled step of the protocol in every state that the situation fits. |
| Undisturbed.CollisionIsCorrected | app/imports/services/process_import.py:226-263 | A worker whose insertion has collided gives its import up as failed only after a lookup that found none of its codes stored, or by a fault of the world; it is done only without ownership. |
| Undisturbed.RaceGivesUpExactly | app/imports/services/process_import.py:248-249 | A round of the race gives up if and only if none of the result's codes is stored at its lookup. |
| Undisturbed.OnlyDisturbancesEndARun | app/imports/services/process_import.py:113-164 | If a delivery ends otherwise than with completion or without having found anything to claim, one of its own steps was disturbed: by a fault, by an unreadable file, by the loss of the import, or by a collision that had no code left to correct. |
| Undisturbed.KindWorldCompletes | app/imports/services/process_import.py:66-112 | In a world without faults and refusals, in which others leave an owner its import and stored codes stay, a worker with a claim keeps it and its journal can end in nothing but completion. |
| Journal.EndIsEarned | app/imports/services/process_import.py:115-164 | Where a kept journal ends is what its last own step earned: completed and failed only by an owner's completion and failure, requeued only by an owner's handling of trouble, replaced only without ownership. |
| Journal.CountersMatchAfterwards | app/imports/services/process_import.py:290-318 | After a journal whose turns are steps of the protocol, failed, requeued or given up, the row's counters count the rows in the tables. |
| Journal.QuietWorldIsLawful | app/imports/services/process_import.py:44-164 | Others that do nothing keep to the lifecycle, so a worker alone is a run of the protocol. |
| Journal.WatchdogIsLawful | app/imports/services/recover_stale_imports.py:44-66 | Others among which the watchdog recovers the import whenever its heartbeat is stale keep to the lifecycle, from every state the tables may show. |
| Refinement.ClaimIsAStep | app/imports/repositories/import_claim_repository.py:51-65 | The claim of a claimable row is the protocol's. |
| Refinement.ResetIsAStep | app/imports/services/process_import.py:166-182 | The reset transaction is a step of the protocol for the import it works on. |
| Refinement.LookUpIsAStep | app/imports/services/row_validation.py:135-137 | Validating a chunk against the table is the protocol's lookup, with the others' codes as they stand in the table. |
| Refinement.ReclassifyIsAStep | app/imports/services/row_validation.py:214-259 | A round of the race is the protocol's. |
| Refinement.PersistIsAStep | app/imports/services/process_import.py:265-288 | A chunk commit whose codes are free is the protocol's: it is enabled and stores the same rows and counts. |
| Refinement.CompleteIsAStep | app/imports/repositories/import_progress_repository.py:70-93 | Completion is the protocol's. |
| Refinement.RequeueIsAStep | app/imports/services/process_import.py:297-311 | The requeue after a database failure is the protocol's. |
| Refinement.FailIsAStep | app/imports/services/process_import.py:320-340 | The failure of an import is the protocol's. |
| Refinement.UnguardedIsAStep | app/imports/repositories/import_progress_repository.py:134-150 | A worker's step without ownership shows no change of the import's row or rows. |
| OutboxRefinement.EventClaimIsAStep | app/outbox/repositories/outbox_repository.py:65-79 | The claim of a due event is the protocol's, for its own import; to other imports it does not show. |
| OutboxRefinement.DispatchIsAStep | app/outbox/services/publish_outbox.py:49-53 | The dispatch of a claimed event, accepted or raising, is the protocol's. |
| OutboxRefinement.OutcomeIsAStep | app/outbox/services/publish_outbox.py:127-171 | Recording an outcome, as it stands in the trail of a publisher's call, is the protocol's: event, job row and the end of the claim agree. |
| OutboxRefinement.ForeignOutcomeIsNone | app/outbox/services/publish_outbox.py:127-171 | Recording the outcome of another import's event does not show in this import. |
| OutboxRefinement.MissingDelayIsAStep | app/outbox/services/publish_outbox.py:146-153 | A failure without a delay for its attempt is the protocol's: the publisher is gone and nothing is stored. |
| OutboxRefinement.ClaimRecoveryIsAStep | app/outbox/services/publish_outbox.py:97-116 | The recovery of a stale claim is the protocol's. |
| OutboxRefinement.ImportRecoveryIsAStep | app/imports/services/recover_stale_imports.py:58-66 | The watchdog's recovery of a stale import, with its new event, is the protocol's. |
| ImportJobs.Claim | app/imports/repositories/import_claim_repository.py:51-65 | A claimed row is sound, owned under the token, and has fewer status changes left. |
| ImportJobs.Complete | app/imports/repositories/import_progress_repository.py:70-93 | A completed row is sound and terminal. |
| ImportJobs.Fail | app/imports/repositories/import_progress_repository.py:95-113 | A failed row is sound and terminal. |
| ImportJobs.Requeue | app/imports/repositories/import_progress_repository.py:115-132 | A row requeued with an attempt left is sound and claimable, and has fewer status changes left. |
| ImportJobs.RecoverStale | app/imports/services/recover_stale_imports.py:58-66 | A recovered row is sound, and terminal or claimable. |
| ProcessImport.WorkbookIsExact | app/imports/services/process_import.py:85-112 | Tables that hold the judged chunks of a workbook hold exactly its data rows, and the counters count them. |
| ProcessImport.WorkbookIsConfigured | app/imports/parsers/xlsx_parser.py:39-93 | What the protocol assumes of a file holds of every workbook: its rows are numbered apart and no chunk is empty. |
| Tasks.ProcessImportTask | app/workers/tasks.py:14-30 | The message of a run that asks for a retry is sent again with one more retry if the bound allows it, or rejected if sending it raises, and beyond the bound ends with the exception; no other run's message is sent again. The journal of the whole delivery is kept until the worker is done with its message, for the reason that its end names; in a world that keeps to the lifecycle the delivery is a run of the protocol, and counters and tables agree at every end. |
| Repositories.ImportClaimRepository.ClaimPendingImport | app/imports/repositories/import_claim_repository.py:31-83 | The row is claimed exactly when it is there, unlocked, pending and has an attempt left; the claim carries the row's new attempt. |
| Repositories.ImportProgressRepository.UpdateCurrent | app/imports/repositories/import_progress_repository.py:134-150 | A progress update changes the row exactly when it is in progress under the token. |
| Repositories.ImportProgressRepository.ResetForReprocessing | app/imports/repositories/import_progress_repository.py:30-41 | An owner's counters go back to zero. |
| Repositories.ImportProgressRepository.RecordChunkCounts | app/imports/repositories/import_progress_repository.py:43-61 | An owner's counters grow by the chunk's. |
| Repositories.ImportProgressRepository.Heartbeat | app/imports/repositories/import_progress_repository.py:63-68 | An owner's heartbeat is renewed. |
| Repositories.ImportProgressRepository.Complete | app/imports/repositories/import_progress_repository.py:70-93 | An owner's import is completed with the given totals and gives up its token. |
| Repositories.ImportProgressRepository.Fail | app/imports/repositories/import_progress_repository.py:95-113 | An owner's import fails with the given reason. |
| Repositories.ImportProgressRepository.RequeueForRetry | app/imports/repositories/import_progress_repository.py:115-132 | An owner's import goes back to pending without a token. |
| Repositories.ImportProgressRepository.HasCurrentOwnership | app/imports/repositories/import_progress_repository.py:22-28 | True exactly when the row is in progress under the token. |
| Repositories.ImportRepository.FailPendingImportAfterDispatchExhausted | app/imports/repositories/import_repository.py:99-116 | A pending import fails; any other row stays. |
| Repositories.ShipmentRepository.BulkInsert | app/imports/repositories/shipment_repository.py:16-21 | All rows are stored, with codes that were free and distinct, or none is. |
| Repositories.ShipmentRepository.FindExistingShipmentCodes | app/imports/repositories/shipment_repository.py:23-29 | Exactly those of the given codes that are stored, whichever import holds them. |
| Repositories.ShipmentRepository.DeleteByImportId | app/imports/repositories/shipment_repository.py:31-33 | The import's shipments go, all others stay in order, and the count says how many went. |
| Repositories.ImportErrorRepository.BulkInsert | app/imports/repositories/import_error_repository.py:25-33 | The errors are appended with their raw data normalised once more. |
| Repositories.ImportErrorRepository.DeleteByImportId | app/imports/repositories/import_error_repository.py:35-39 | The import's errors go, all others stay in order. |
| Repositories.JudgedErrorsAreNormalised | app/imports/services/row_validation.py:374-393 | Errors built by validation are left as they are by the pass at insertion. |
| Database.DeletedShipments | app/imports/repositories/shipment_repository.py:31-33 | Deleting an import's shipments leaves it none and every other import all of its own. |
| OutboxRepositories.OutboxRepository.ClaimDueEvents | app/outbox/repositories/outbox_repository.py:42-79 | The oldest due unlocked events are claimed, each under its own new token and remembered as it was; no other event changes. |
| OutboxRepositories.DueEventsTaken | app/outbox/repositories/outbox_repository.py:49-63 | In the rows' own fields: the batch holds pending unlocked events that are available by now, the longest available first; such an event is left out only of a full batch. |
| OutboxRepositories.OutboxRepository.MarkPublished | app/outbox/repositories/outbox_repository.py:81-97 | Only a holder publishes its event. |
| OutboxRepositories.OutboxRepository.MarkPublishFailure | app/outbox/repositories/outbox_repository.py:99-147 | Only a holder stores a failure; without a new availability the old one stays. |
| OutboxRepositories.OutboxRepository.LockStaleClaims | app/outbox/repositories/outbox_repository.py:149-177 | The oldest unlocked stale claims, as they stand in the table. |
| OutboxRepositories.StaleClaimsTaken | app/outbox/repositories/outbox_repository.py:156-168 | In the rows' own fields: the batch holds unlocked events in progress claimed before the given time, the oldest claims first; such an event is left out only of a full batch. |
| OutboxRepositories.OutboxRepository.RequeueStaleClaim | app/outbox/repositories/outbox_repository.py:179-202 | A claim that still stands as it was locked goes back to pending. |
| OutboxRepositories.OutboxRepository.MarkStaleClaimFailed | app/outbox/repositories/outbox_repository.py:204-224 | A claim that still stands as it was locked fails. |
| OutboxRepositories.OutboxRepository.CreatePendingDispatchIntent | app/outbox/repositories/outbox_repository.py:226-234 | One new pending event for the import; the stored events stay. |
| Batches.OldestIsOldestFirst | app/outbox/repositories/outbox_repository.py:49-63 | A batch is as large as it may be, in order, without repetition, and nothing left out is older. |
| Batches.OldestIsTaken | app/outbox/repositories/outbox_repository.py:55-60 | The oldest row that nobody has locked is in every batch that is taken. |
| Batches.BatchTakes | app/outbox/repositories/outbox_repository.py:49-63 | A batch holds eligible unlocked rows once each, by time and then by identifier; one is left out only of a full batch whose rows all come before it. |
| OutboxRepositories.ClaimedBatchesAreDisjoint | app/outbox/repositories/outbox_repository.py:49-79 | After a claim, and as long as an event still stands claimed in any later table, no other batch contains it, whatever its time, limit and locks; while the claim is in flight, its locks keep its rows out of other batches. |
| PublishOutbox.PublishOutboxService.PublishDueEvents | app/outbox/services/publish_outbox.py:45-57 | From the claim on, tables and outbox change by turns of the others and by the outcomes alone. Each outcome is the answer of the broker to the dispatch of its event, and it is stored exactly when its claim still stood after the others' turn: published, failed together with its pending import, or pending again after the delay for this attempt. After the call no claim of its batch is left behind, what was settled is still so, and no recorded failure is forgotten; only a missing delay after a dispatch that raised, which needs a maximum above the delays plus one, cuts the call short. |
| PublishOutbox.StoredAsDispatched | app/outbox/services/publish_outbox.py:45-57 | An outcome is stored as published exactly where the broker took the message; where the dispatch raised, the event has one more attempt and the error, and is pending after the delay for this attempt or failed with its last one. |
| PublishOutbox.PublishOutboxService.RecordPublishSuccess | app/outbox/services/publish_outbox.py:127-137 | A holder publishes its event; anybody else changes nothing. |
| PublishOutbox.PublishOutboxService.RecordPublishFailure | app/outbox/services/publish_outbox.py:139-186 | A holder's event is rescheduled by the delay for this attempt, or fails together with a pending import; without a delay the call ends before it stores anything. |
| PublishOutbox.PublishOutboxService.RecoverStaleClaims | app/outbox/services/publish_outbox.py:59-116 | Every claim of the batch is requeued, or failed with its pending import when exhausted; exactly the exhausted imports are returned, in order, and nothing else changes. |
| RecoverStaleImports.RecoverStaleImportsService.RecoverStaleImports | app/imports/services/recover_stale_imports.py:36-70 | The oldest stale imports are requeued or failed by their attempts; exactly the requeued ones get one new due event each, and nothing else changes. In the rows' own fields: no import changes but an unlocked one in progress whose heartbeat is before the given time, and unless the batch is full every such import is pending or failed afterwards. |
| RecoverStaleImports.StaleImportsTaken | app/imports/services/recover_stale_imports.py:44-56 | The batch holds unlocked imports in progress whose heartbeat is before the given time, the oldest first; such an import is left out only of a full batch whose rows are at least as old. |
| RecoverStaleImports.RecoverStaleImportsService.MarkFailed | app/imports/services/recover_stale_imports.py:72-79 | The import fails for too many attempts, keeping the expired heartbeat as its last failure. |
| RecoverStaleImports.RecoverStaleImportsService.RequeueWithDispatchIntent | app/imports/services/recover_stale_imports.py:81-99 | The import goes back to pending together with one new event for it. |
| Jsonb.SafeIsPrimitive | app/imports/jsonb.py:7-21 | Every nested value lands in the JSON grammar, with distinct text keys. |
| Jsonb.SafeIdempotent | app/imports/repositories/import_error_repository.py:28-30 | A second pass changes nothing. |
| Jsonb.FixedPointsArePrimitive | app/imports/jsonb.py:7-21 | A value is left alone if and only if it is in the grammar. |
| Jsonb.SafeMeaning | app/imports/jsonb.py:7-21 | Decimals, dates and values of other types become their text, lists, tuples and sets become lists of the same length element by element, and primitive values stay. |
| Jsonb.LastValueWins | app/imports/jsonb.py:15-16 | Of keys that read the same exactly the last value is stored; nothing else is lost or added. |
| Jsonb.AcceptedIffClean | app/imports/jsonb.py:7-21 | The normalised value is accepted by a JSONB column if and only if no surviving number is non-finite and no surviving text has U+0000. |
| Jsonb.InfiniteNumberIsRefused | app/imports/jsonb.py:19-20 | An infinite number passes the normaliser and is refused by the column. |
| Jsonb.NulTextIsRefused | app/imports/jsonb.py:19-20 | Every text with U+0000 in it passes the normaliser and is refused by the column. |
| Search.ThreeReplacesEscapeEach | app/shipments/repositories/shipment_query_repository.py:90-91 | The three replacements in their order escape every special character once and no other. |
| Search.FilterFindsSubstrings | app/shipments/repositories/shipment_query_repository.py:90-92 | The pattern matches a string under ILIKE if and only if the value occurs in it up to case, for all strings. |
| Search.EscapedMatchesItself | app/shipments/repositories/shipment_query_repository.py:90-92 | An escaped value matches itself alone, and an unescaped underscore any single character. |
| Pagination.PagesPartition | app/common/pagination.py:50-61 | Pages one to the last give the ordered result back exactly; each is non-empty, all but the last are full, later ones are empty. |
| Pagination.PageCount | app/common/pagination.py:50-61 | The metadata repeat the request and the total; the pages are enough for all items, and none is in vain. |
| Pagination.AcceptedRequests | app/common/pagination.py:31-47 | Exactly the requests with positive page and a size within the limit are accepted, and an accepted one is the one asked for, with the default where a parameter is absent. |

## Left out

- HTTP routes, error responses, request parsing, settings loading, logging, migrations and container scripts: plumbing
  without a property of its own.
- File upload and hashing (app/storage/local_file_storage.py): a fingerprint is an opaque text.
- The workbook format, opening the file and its header row: a worksheet is the sequence of its rows of known fields, and
  any failure to read it is an outcome that the world may have before any chunk.
- The field adapters: each is a function from a value to a parsed value or a message. The rule that a
  parsed delivery date is a date cannot fail.
- Column lengths and numeric rounding in PostgreSQL: which rows are refused for them is for the world to say.
- What goes into a dispatch error's message: it is the text that the world gives.
- Status and creation time in the answer of a creation call, and the stored file's name, path and size.
- Real time: clocks are numbers chosen by the environment, staleness and due times compare them, and nothing says that
  a step is ever taken.
- Prefetching, and worker start-up recovery, which calls the same watchdog operation.
- `Lifecycle` and `CreateProtocol` are on values, since they speak of all interleavings at once; the services over
  them are classes that change a session in place.
- ProcessImport.ProcessImportService.Run: what other processes do inside a chunk transaction is placed around its
  lookup, not between its insert and its guarded update; the protocol layer takes both together as one step.
- ProcessImport.ProcessImportService.Run: chunks are cut before the first is processed, where the source reads the file
  lazily; a failure to read on is possible before each chunk.
- PublishOutbox.PublishOutboxService.PublishDueEvents: of a failed dispatch that was rescheduled it says how the event was
  stored, that the failure stays counted and that the claim is given up, not that the event is still pending at the end of
  the call, because another publisher may have claimed it since.
- Ordering of listed shipments and errors, and the equality and date filters of the shipment list: the page properties
  hold for any ordered result.
