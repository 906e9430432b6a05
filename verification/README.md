# A verified model of the export service

The service exports the first L rows of a large table, by id and up to a snapshot taken at creation, as one CSV file. It
does so in batches, survives crashes at any point, and hands out a file only after auditing it. This project models that
protocol, the data path under it and the audit behind it in Dafny, and proves what they promise.

## How the model is laid out

| file | models |
|---|---|
| `Common.dfy`, `Decimal.dfy` | `Option`, `Result`; decimal text of numbers |
| `Csv.dfy`, `CsvParser.dfy` | the CSV writer and the audit script's character-level parser |
| `RecordSource.dfy` | keyset paging, the snapshot, row normalisation |
| `Storage.dfy` | object keys, the verified PUT, the paged deletion loop |
| `Verification.dfy` | the single-pass audit of a finished file |
| `Resume.dfy` | the checkpoint log and its fold |
| `Jobs.dfy` | the job row, every write to it, the API's operations, the sweeper |
| `Protocol.dfy` | one job as a step machine: database, store, workers, API requests, sweeper, clock, faults |
| `LogSafety.dfy`, `DataSafety.dfy`, `SoloSafety.dfy`, `Completion.dfy` | invariants over every run |
| `Ownership.dfy`, `Orderly.dfy`, `Terminal.dfy` | single ownership and final statuses: exactly when they hold |
| `Audited.dfy` | whether the stored file is the text that passed: exactly when it is; audits on demand |
| `Races.dfy` | two runs in which a slow worker does what the heartbeat cannot prevent |
| `Durability.dfy` | a checkpoint never runs ahead of its bytes |
| `Uninterrupted.dfy`, `Outcomes.dfy`, `Delivery.dfy` | a worker left alone: it ends, what its outcome means, and that it delivers |
| `Recovery.dfy`, `Stranded.dfy` | what a sweep, a resume and a cancellation lead to, and the crash that none of them covers |
| `Runner.dfy` | `runExportJob` as an imperative program, proved equal to the machine's worker left alone |
| `EndToEnd.dfy` | what is behind a download link |

In the step machine each awaited request of `runExportJob` is one atomic step of a worker (`Protocol.Act`). A step can
succeed, be refused, be carried out with its reply lost, or be cut off by a crash (`Luck`). The deletion of chunks goes
page by page and can fail or crash between pages. Any number of workers may be started at any time. Between any two steps
the clock may tick, the table may be rewritten, other jobs may write objects, the sweeper may run with a cutoff from the
past, API requests may read the row now and write it later, and a verification asked for by a user may read the file now
and record its report later.

## Assumptions, and which theorem uses which

- **(S) stable table**: the rows with id up to the snapshot never change, and there are at least L of them. Creation
  checks the count (`EndToEnd.AdmittedHasTarget`). Used with a fixed batch size by `DataSafety` and
  `EndToEnd.DownloadIsTheExport`, with any batch sizes by `SoloSafety.PublishedFileIsTarget` and
  `SoloSafety.FileIndependentOfAttempts`, by both theorems of `Delivery`, by the two deliveries of `Recovery`, by
  `Terminal.CompletedCanFail` and by `Stranded.CrashCanStrand`.
- **(M) mutable table**: any inserts, updates and deletes between any two requests. Used by `LogSafety`, `Completion`,
  `Durability`, `Outcomes`, `Stranded.StrandedForGood`, `Ownership`, `Orderly`, `Terminal` (but for `CompletedCanFail`),
  `Audited`, `SoloSafety.CheckpointedChunkIsInPlace`, `SoloSafety.PublishedFileIsOrdered`,
  `SoloSafety.ProgressIsFoldOfLog`, `SoloSafety.UploadsOfAttempts` and `EndToEnd.DownloadIsOrdered`.
- **No overlap**: an attempt starts only when every earlier one has returned, thrown or crashed. Required by all of
  `SoloSafety`, by `Delivery.DeliversAfterAttempts` and by `EndToEnd.DownloadIsOrdered`. All other theorems allow any
  number of overlapping workers.
- **Orderly environment** (`Orderly`, and the parts of `Terminal` that say so): while a worker owns a RUNNING job its
  heartbeat is at most as old as the stall timeout; an API request that writes finds the status it read; nothing
  precedes creation's QUEUED write. `Ownership` assumes none of this.
- **Environment of all theorems**: single-row conditional updates, the checkpoint transaction and object PUTs are atomic;
  the transaction fails on the unique constraint; a failed assembly publishes nothing; ids are positive and unique.
- The audit's id reading is an unknown partial function. Only `Delivery` asks that it reads decimal text as decimal.

## Where the code and its documentation disagree

- `server/src/services/exportRunner.service.ts:39-45` says that two workers never write the same export concurrently. The
  heartbeat only detects staleness: `Races.SlowWorkerLosesTheJob` is a run, for any stall timeout, in which a slow but
  live worker is overtaken and both own the job. `Ownership.OwnershipExactly` says when the promise holds: over every run,
  single ownership and final terminal statuses survive each step if and only if the run takes none of eight steps, each
  named by the guard that the code does not have. Five come too early or too late (the sweep or the claim of a job whose
  owner is alive, an API write after the row changed, in two forms, and creation's QUEUED write after pickup); in orderly
  runs they cannot occur (`Orderly.OrderlyHasNoDisorder`). Three stay open in orderly runs too: the unguarded early cancel
  (`server/src/services/exportRunner.service.ts:180-187`), a lost reply to the write that ends a run (`failJob` also
  inserts a failure row, and a throw there reaches the catch block), and a throw from `deleteChunks` after COMPLETED or
  CANCELLED was written (`server/src/services/exportRunner.service.ts:225`,
  `server/src/services/exportRunner.service.ts:372`).
- COMPLETED and CANCELLED are not final. `Orderly.EarlyCancelLosesTheJob` is an orderly run to CANCELLED and then FAILED,
  and by `Terminal.CompletedCanFail` every export over a stable table can become COMPLETED and then FAILED in two ways.
  `Terminal.TerminalExactly` lists the writes that overwrite a terminal status, and over orderly runs each of them follows
  one of the three open steps.
- The comment on `claimJob` (`server/src/services/exportRunner.service.ts:43-44`) says that the claim makes a hard crash
  recoverable. `Recovery` proves it for crashes in RUNNING. VERIFYING is in no claim, resume, cancel or sweep set:
  by `Stranded.CrashCanStrand` every export can crash into a state that nothing leaves.
- The data does not rest on the claim over a stable table: there the theorems hold for any number of overlapping workers.
  Over a mutable table they need attempts that do not overlap. `Races.OverlapCanSpoilTheFile` is a run with overlap, and a
  row that becomes visible late, in which a download link is handed out for a file with one row although two were asked
  for and verified. `Audited.AuditedExactly` says when that cannot happen: as long as no step publishes another text over
  a passing report and none records a passing report of a text that has been replaced.

## Model

| member | source | states |
|---|---|---|
| Decimal.ValueOfPrint | server/src/services/recordSource.service.ts:41 | an id printed as decimal text reads back as the same number |
| Decimal.PrintForm | server/src/services/recordSource.service.ts:41 | an id is printed in ASCII digits, least significant last, without a leading zero |
| Csv.ChunksConcatenate | server/src/services/exportRunner.service.ts:100-111 | concatenating chunks in order is serialising the concatenated rows |
| Csv.LinesOfFile | server/src/utils/csv.ts:49-57 | the LF characters of a file number 1 + rows + the LFs inside fields, and there is no CR outside fields |
| Csv.QuotesOfFile | server/src/utils/csv.ts:33-41 | quote characters are always even in number |
| Csv.FieldForm | server/src/utils/csv.ts:33-41 | a field is written as it is exactly when it holds no quote, comma, CR or LF; otherwise it is enclosed in quotes and longer by two and by one for each of its quotes |
| Csv.HeaderForm | server/src/utils/csv.ts:11-25 | the header line, name by name in the source's order |
| CsvParser.ParseCsv | scripts/auditLiveExport.mjs:40-80 | the index loop computes the character-by-character scan, including doubled quotes, CR outside quotes and an unterminated last line |
| CsvParser.ScanField | scripts/auditLiveExport.mjs:48-73 | from any parser state an escaped field is read back to its exact text, whatever it contains |
| CsvParser.ParseOfWritten | scripts/auditLiveExport.mjs:40-80 | lines of any fields are read back whether they end in LF or CRLF and whether or not the last one is terminated; an unterminated last line counts unless it is one empty field |
| CsvParser.CarriageReturnOutside | scripts/auditLiveExport.mjs:60-73 | a CR is kept inside quotes and dropped everywhere else |
| CsvParser.ParseOfFile | server/src/utils/csv.ts:33-57 | parsing header plus serialised rows gives the header fields and then the nine fields of every row, for all contents |
| CsvParser.FileReadByName | server/src/utils/csv.ts:44-46 | in a file read back, the value under each column name, looked up by that name in the parsed header, is the row's value of that name |
| CsvParser.SerializeChunkInjective | server/src/utils/csv.ts:44-52 | different row sequences never serialise to the same bytes |
| RecordSource.PageIsOrdered | server/src/services/recordSource.service.ts:72-81 | a page has at most `limit` rows, strictly ascending, above the cursor and within the snapshot |
| RecordSource.PageIsWhatTheTableHolds | server/src/services/recordSource.service.ts:39-82 | rows are the page if and only if they show, column by column, the table's records of the lowest ids after the cursor and within the snapshot, `limit` of them or all; an absent category, amount or status is empty |
| RecordSource.PagesCompose | server/src/services/recordSource.service.ts:65-82 | a page of a + b rows is the page of a followed by the page of b from the first one's last id: keyset paging neither skips nor repeats |
| RecordSource.PagesOfAgreeingTables | server/src/services/recordSource.service.ts:61-63 | what happens above the snapshot shows in no page |
| RecordSource.CaptureSnapshotMaxId | server/src/services/recordSource.service.ts:85-90 | the snapshot is an upper bound of all ids, is one of them, and is 0 for an empty table |
| Storage.ChunkKeyInjective | server/src/services/storage.service.ts:60-62 | chunk keys differ for different jobs or batch numbers, also past eight digits |
| Storage.KeyForms | server/src/services/storage.service.ts:60-67 | both keys spelled out, the batch number in at least eight digits |
| Storage.ChunkKeyIsNotFinal | server/src/services/storage.service.ts:60-67 | no chunk key is a final key of any job |
| Storage.ChunkPrefixCatches | server/src/services/storage.service.ts:212 | the deletion prefix matches a job's own chunk keys and no other job's, and no final key |
| Storage.Bucket.PutObjectVerified | server/src/services/storage.service.ts:115-135 | success exactly when the store then holds an object of the body's size under the key, whoever wrote in between |
| Storage.Bucket.DeleteChunks | server/src/services/storage.service.ts:211-231 | for any paging of the listing and a failure at any page, no key outside `exports/<id>/chunks/` goes and nothing is changed; without a failure none inside it is left, and the deletions are counted |
| Verification.ReadLines | server/src/services/exportVerification.service.ts:53-124 | the one-pass loop gives up exactly on a ragged file; else it computes every counter as folded over the whole file |
| Verification.VerifyExportFile | server/src/services/exportVerification.service.ts:53-157 | no result exactly for a ragged file; else each number is the cardinality of what it counts among the lines, and each complaint is made for its own reason, in order |
| Verification.AuditMeans | server/src/services/exportVerification.service.ts:59-140 | for every file: rows, different first fields, lines whose first field stands on an earlier line, ids above the snapshot and lines without an id are counted as sets over the lines; ascending, least and greatest id likewise; eight complaints, each if and only if its reason holds |
| Verification.AuditPassesIff | server/src/services/exportVerification.service.ts:129-140 | it passes exactly on a right header, `expectedRows` nine-field rows, readable strictly ascending ids within the snapshot, and a non-empty file; the unique and duplicate checks follow |
| Verification.CountersAreTrue | server/src/services/exportVerification.service.ts:108-120 | for every file, passing or not, min and max are the true extremes of the readable ids |
| Verification.ExtremesOfPassingFile | server/src/services/exportVerification.service.ts:108-120 | on a pass they are the ids of the first and last row |
| Verification.AscendingIdsAreUnique | server/src/services/exportVerification.service.ts:91-105 | strictly ascending readable ids never repeat a text in the seen-set |
| Resume.LoadResumeState | server/src/services/exportResume.service.ts:24-68 | the loop returns the position after the log, or the error of its first fault |
| Resume.LoadResumeMeans | server/src/services/exportResume.service.ts:31-67 | in terms of the entries: accepted if and only if each carries the next number and a greater id; else refused for the first that does not, by number before id |
| Resume.LoadResumeIff | server/src/services/exportResume.service.ts:38-67 | a log is accepted exactly when it is numbered 1..N with positive increasing last ids; otherwise the first fault is reported |
| Resume.AppendEntry | server/prisma/schema.prisma:98-110 | the next batch number is free in a valid log and inserting it appends to the ordered log |
| Jobs.GetExportDownload | server/src/services/export.service.ts:204-232 | a link exactly for a completed job with a stored key whose latest verification passed |
| Jobs.JobTable.GetOwnedExportJob | server/src/services/export.service.ts:92-101 | somebody else's job looks like no job |
| Jobs.JobTable.AdmitExport | server/src/services/export.service.ts:39-57 | with the snapshot read from one table and the count from a later one, passes exactly for a limit in range that the later table can fill, which then has a full target |
| Jobs.JobTable.CreateExportJob | server/src/services/export.service.ts:36-89 | the stored job is queued with the frozen snapshot, no progress, key, start time or flag; a refused request leaves no trace |
| Jobs.JobTable.ResumeExportJob | server/src/services/export.service.ts:125-165 | succeeds exactly from the five resumable statuses; then the status is RESUMING, the cancel flag is cleared, and progress, key, start time and every other job stay |
| Jobs.JobTable.CancelExportJob | server/src/services/export.service.ts:167-198 | the flag is set, a running job keeps its status and another becomes CANCELLED, nothing else changes; a cancelled job is returned as it is |
| Jobs.JobTable.SweepStalledExports | server/src/services/stalledJobs.service.ts:16-58 | a RUNNING job with a heartbeat older than the timeout is INTERRUPTED with progress, flag, key and start time as they were; every other job is identical |
| Protocol.ChunkAfterPut | server/src/services/storage.service.ts:59-67 | writing a chunk changes that chunk and no other, and never the final object |
| Protocol.ChunkAfterDrop | server/src/services/storage.service.ts:211-231 | deleting the last chunks leaves none and keeps the final object |
| Protocol.ChunkAfterPage | server/src/services/storage.service.ts:216-227 | a page of the deletion changes no chunk that stays, and never the final object |
| LogSafety.FreeBatchIsNext | server/prisma/schema.prisma:108 | a worker whose batch number is free stands at the very end of the log, so a stale worker cannot append out of place |
| LogSafety.CommitKeepsLog | server/src/services/exportRunner.service.ts:257-273 | the transaction appends one entry in order and keeps the log valid and within the limit |
| LogSafety.LogAlwaysOk | server/src/services/exportResume.service.ts:35-58 | (M), any overlap: in every reachable state the log is numbered 1..N, increasing, with entries of at least one row and at most L rows in all; loading never throws; neither wrong-row-count failure ever occurs |
| LogSafety.LogOnlyGrows | server/src/services/exportRunner.service.ts:257-273 | the log of a run is a prefix of the log of every continuation |
| LogSafety.FullLogLoads | server/src/services/exportRunner.service.ts:318-330 | a worker with a full count finds a log total of exactly L on reloading |
| LogSafety.UploadsConserved | server/src/services/exportRunner.service.ts:251-273 | uploads = checkpoints + runs whose last upload was not checkpointed, in every reachable state |
| DataSafety.StoreHoldsIdealBatches | server/src/services/exportRunner.service.ts:219-273 | (S), any overlap, faults and interleaving: whatever is stored as batch n is the serialisation of the n-th ideal batch |
| DataSafety.FinalObjectIsTarget | server/src/services/exportRunner.service.ts:83-131 | (S), same generality: the final object, when present, is the header and the first L rows of the snapshot |
| DataSafety.FileIndependentOfHistory | server/src/services/exportRunner.service.ts:195-276 | two exports of the same rows publish the same bytes whatever happened to each, and whatever their batch sizes |
| DataSafety.FullLogHasCeilingBatches | server/src/services/exportRunner.service.ts:233-276 | the batches committed to completion number exactly ceil(L / B) |
| DataSafety.TotalOfCut | server/src/services/exportRunner.service.ts:233-234 | after n committed batches of size B the log accounts for min(n * B, L) rows |
| SoloSafety.CheckpointedChunkIsInPlace | server/src/services/exportRunner.service.ts:237-273 | (M), no overlap, crashes anywhere: a checkpointed chunk's rows ascend, lie after the previous checkpoint, end at its own id and number its `rowsWritten` |
| SoloSafety.PublishedFileIsOrdered | server/src/services/exportRunner.service.ts:83-131 | (M), no overlap: a published file has L rows, free of duplicates, ascending, within the snapshot |
| SoloSafety.PublishedFileIsTarget | server/src/services/exportRunner.service.ts:195-276 | (S), no overlap: with a different batch size in every attempt the file is still the target |
| SoloSafety.FileIndependentOfAttempts | server/src/services/exportRunner.service.ts:195-276 | (S), no overlap: interrupted at will or not at all, with any batch sizes, the published bytes are the same |
| SoloSafety.ProgressIsFoldOfLog | server/src/services/exportRunner.service.ts:257-273 | (M), no overlap: the row's count and cursor equal the fold of the log in every reachable state, across crashes, sweeps and resumes |
| SoloSafety.UploadsOfAttempts | server/src/services/exportRunner.service.ts:233-276 | no overlap: all uploads of a history are at most checkpoints + attempts that ended before committing + 1 in flight |
| Ownership.OwnershipExactly | server/src/services/exportRunner.service.ts:39-68 | over every run, with no assumption on timing: each step keeps a single live owner, a busy status while it owns, and terminal statuses, if and only if no step is one of the eight the code leaves unguarded |
| Ownership.StepIsSafeIff | server/src/services/exportRunner.service.ts:133-144 | the same for one step, from any state with the invariant |
| Ownership.LapseIsUnsafe | server/src/services/exportRunner.service.ts:372-390 | each of the eight steps does harm every time it is taken |
| Ownership.GuardedCancelIsSafe | server/src/services/exportRunner.service.ts:180-187 | a guard on the row's status alone would make the early cancel safe |
| Orderly.OrderlyHasNoDisorder | server/src/services/stalledJobs.service.ts:16-34 | with fresh heartbeats, atomic requests and QUEUED first, no sweep, claim or API write meets a live owner's row or a terminal one wrongly |
| Orderly.OrderlyOwnershipExactly | server/src/services/exportRunner.service.ts:46-68 | over orderly runs ownership and terminal statuses hold at every step if and only if no step is one of the three hazards |
| Orderly.EarlyCancelLosesTheJob | server/src/services/exportRunner.service.ts:180-187 | a concrete orderly run in which the unguarded early cancel strikes an owned job, which then turns from CANCELLED to FAILED |
| Terminal.TerminalChangesIff | server/src/services/exportRunner.service.ts:133-144 | from any state, a step changes a terminal status if and only if it is one of the listed writes, by worker's place, luck and row status |
| Terminal.TerminalExactly | server/src/services/exportRunner.service.ts:173-231 | over every run, COMPLETED and CANCELLED are final however long it goes on, if and only if none of those writes meets one |
| Terminal.OverwriteFollowsHazard | server/src/services/exportRunner.service.ts:372-390 | over orderly runs a terminal status is overwritten only after, or by, one of the three hazards |
| Terminal.TerminalIsFinal | server/src/services/exportRunner.service.ts:173-231 | in a run without unguarded steps completed and cancelled jobs stay so |
| Terminal.CompletedCanFail | server/src/services/exportRunner.service.ts:360-390 | (S): from any start there are orderly runs to COMPLETED and then FAILED, by a throw of the deletion and by a lost reply |
| Races.SlowWorkerLosesTheJob | server/src/services/exportRunner.service.ts:39-58 | for any stall timeout, a run after which two live workers own the same job |
| Races.OverlapCanSpoilTheFile | server/src/services/exportRunner.service.ts:83-131 | (M) with overlap: a run after which a link is handed out for a file with one row, though two were asked for and verified |
| Audited.StepKeepsAuditIff | server/src/services/exportVerification.service.ts:159-175 | a step parts a passing latest report from the stored file if and only if it publishes another text over it or records a report of a replaced text |
| Audited.AuditedExactly | server/src/services/exportRunner.service.ts:337-370 | (M), any overlap, over every run: a passing latest report always speaks of the stored file if and only if no step is one of those two |
| Audited.LinkedFileIsSound | server/src/services/export.service.ts:204-232 | (M), any overlap: without those two steps the file behind a download link has the right header, L rows, and ids ascending within the snapshot |
| Audited.DemandedAuditIsTrue | server/src/services/exportVerification.service.ts:209-227 | a verification asked for by a user reads the file exactly for a job with its own key whose file is there and not ragged; its report is true of the text that was read, number by number |
| Completion.CompletedWasVerified | server/src/services/exportRunner.service.ts:342-370 | (M), any overlap, no timing assumption: a completed job has a passing verification on record with `expectedRows` = L whose text was a sound file; its key is the final key and the file is stored |
| Durability.CheckpointHasItsBytes | server/src/services/exportRunner.service.ts:149-157 | (M), any overlap and faults: while no chunk was deleted on purpose, every checkpointed batch has its chunk in the store |
| Durability.CheckpointNeedsSize | server/src/services/storage.service.ts:115-135 | under any fault, a worker comes to the checkpoint exactly by a confirming read that finds an object of the size it sent |
| Durability.CommitWasConfirmed | server/src/services/exportRunner.service.ts:249-273 | (M), any overlap and faults, over every run: before a worker's checkpoint of some rows there was a moment at which it read back an object of their size under that batch's key |
| Durability.NothingIsLostBeforeTheEnd | server/src/services/exportRunner.service.ts:149-157 | until a job has been COMPLETED or CANCELLED nothing is deleted, so nothing checkpointed is missing |
| Uninterrupted.ActDescends | server/src/services/exportRunner.service.ts:159-393 | every successful request brings a run nearer to its end |
| Uninterrupted.AloneIsRun | server/src/services/exportRunner.service.ts:159-393 | the recursive run of one worker is a run of the machine in which only that worker moves |
| Outcomes.OutcomeTells | server/src/services/exportRunner.service.ts:159-393 | from any row, log, table and store, what each outcome of an undisturbed run leaves: status, file key, a report of the stored file that passed or failed, no chunks after completion; a skipped run changes nothing and says why |
| Outcomes.ThrowTells | server/src/services/exportRunner.service.ts:388-392 | a request that throws before the try block leaves the row alone; inside it the job ends FAILED |
| Outcomes.EmptyFileThrows | server/src/services/exportRunner.service.ts:117-123 | after assembly a missing or empty file ends the run FAILED, without a report |
| Delivery.OrderedFilePasses | server/src/services/exportVerification.service.ts:129-140 | the file of any L rows that ascend within the snapshot is read to its end and passes the audit |
| Delivery.PageIsFull | server/src/services/exportRunner.service.ts:233-247 | while rows are missing the next page comes back full: the dataset never runs out |
| Delivery.DeliversAfterOverlap | server/src/services/exportRunner.service.ts:219-387 | (S): from any state that overlapping workers can reach, once the job is claimable with its chunks present and not cancelled, the next worker left alone completes it; the file is the target, its report passed and is the latest, and no chunk is left |
| Delivery.DeliversAfterAttempts | server/src/services/exportResume.service.ts:24-68 | (S): the same after any crash schedule of non-overlapping attempts with any batch sizes |
| Recovery.UnfinishedJobIsDelivered | server/src/services/exportRunner.service.ts:46-387 | (S), any overlap: until a job was completed or cancelled, whenever it is claimable and not flagged, the next worker left alone delivers it; that its chunks are there is proved, not assumed |
| Recovery.ResumedJobIsDelivered | server/src/services/export.service.ts:125-165 | (S): once a user's resume of an unfinished job is answered, flagged before or not, the next worker left alone delivers it |
| Recovery.ResumeFreesTheJob | server/src/services/export.service.ts:140-148 | the answer to a resume, field by field; any worker may then claim the job |
| Recovery.CancelFlagsTheJob | server/src/services/export.service.ts:182-190 | the answer to a cancellation, field by field |
| Recovery.CrashedJobIsInterrupted | server/src/services/stalledJobs.service.ts:16-34 | the only owner crashes and the timeout passes: one sweep leaves the job INTERRUPTED with its progress, claimable and resumable |
| Recovery.FlaggedPickupCancels | server/src/services/exportRunner.service.ts:173-187 | a pickup of a flagged job that has not ended cancels it and touches nothing else |
| Recovery.FlagStopsTheLoop | server/src/services/exportRunner.service.ts:220-231 | a worker that meets the flag between batches cancels the job and removes its chunks; log and final object stay |
| Stranded.StrandedForGood | server/src/services/exportRunner.service.ts:30-36 | a job in VERIFYING without a live owner, flag or pending request keeps its row, log and file through every run |
| Stranded.CrashCanStrand | server/src/services/exportRunner.service.ts:332-370 | (S): from any start a crash just before completion strands the job in VERIFYING for good |
| Runner.Backend.constructor | server/src/services/export.service.ts:59-67 | a fresh job: pending row, empty log, nothing recorded |
| Runner.Backend.ClaimJob | server/src/services/exportRunner.service.ts:46-68 | claims exactly from the five resumable statuses or a RUNNING row with an old heartbeat; status RUNNING, the start stamped only the first time, the rest kept |
| Runner.Backend.ReconcileJobProgress | server/src/services/exportResume.service.ts:74-103 | from any row, progress equals the fold of the log afterwards; a row that agrees is not touched, and nothing else changes but the heartbeat |
| Runner.Backend.AssembleFinalCsv | server/src/services/exportRunner.service.ts:83-131 | succeeds exactly when every chunk is there, and then the final object is the header and the chunks in batch order, no other object changed |
| Runner.Backend.VerifyFinalFile | server/src/services/exportVerification.service.ts:59-175 | audits the published text and records the report of that text; a ragged text throws and leaves no report |
| Runner.Backend.ExportBatch | server/src/services/exportRunner.service.ts:249-273 | upload first, then checkpoint and progress together, or neither on a taken batch number |
| Runner.Backend.Finish | server/src/services/exportRunner.service.ts:318-340 | the count checks and the cross-check, then verification, as the machine orders them |
| Runner.Backend.AssembleAndVerify | server/src/services/exportRunner.service.ts:337-347 | assembly and audit of the machine |
| Runner.Backend.Close | server/src/services/exportRunner.service.ts:348-387 | the completion gate: rejected and failed, or completed and cleaned up |
| Runner.Backend.RunClaimedJob | server/src/services/exportRunner.service.ts:195-316 | the try block with its batch loop: returns, or throws, where the machine's worker does |
| Runner.Backend.RunExportJob | server/src/services/exportRunner.service.ts:159-393 | from any row, log, table and store, one undisturbed run of the program leaves exactly the state and outcome of the machine's worker left alone, and with it what that outcome tells |
| EndToEnd.AdmittedHasTarget | server/src/services/export.service.ts:48-57 | a job that creation admits has a full target over the table its rows were counted in |
| EndToEnd.DownloadIsTheExport | server/src/services/export.service.ts:204-232 | (S), any overlap: the file behind a download link reads back as the nine names and exactly the L lowest records within the snapshot, each of the table's values under the name of its column |
| EndToEnd.FileShowsTable | server/src/services/recordSource.service.ts:39-82 | the file of a page, read back, shows the table's own values by column name |
| EndToEnd.DownloadIsOrdered | server/src/services/export.service.ts:204-232 | (M), no overlap: it reads back as L rows, free of duplicates, ascending, within the snapshot |

## Left out

- Bytes: text stands for its UTF-8 encoding, so sizes are lengths of text, and a report keeps the text where the code keeps
  its SHA-256.
- `csv-parse`: its internals are not modelled; lines are those of the repository's own `parseCsv`, and of the parser's own
  errors only the ragged line is kept.
- `BigInt(text)` and its leniency (empty text, hexadecimal, blanks): the audit reads ids by an unknown partial function.
- Amounts and timestamps enter rows as the text they print to.
- Error messages, failure rows, logging, `completedAt`, `failedAt` and `errorMessage`; a throw while a failure row is
  inserted is covered as a lost reply of the write before it.
- The branch for a job id without a row.
- Queueing, wake-up calls, HTTP, authentication, rate limits, the client and the dashboard: any worker may pick a job up at
  any time, which is more than the queue allows.
- Concurrent interference inside `Runner`: the imperative program runs alone; interleavings, faults and crashes at every
  request are the step machine's.
- The row's fixed columns (snapshot, limit) are parameters of a run, and the batch size one of a worker.
- A transaction over an empty batch: the machine sends it to the catch block to be total; no run gets there.
- Completeness of a later export: the audit and the protocol say nothing about rows deferred past a snapshot.
- Delivery.DeliversAfterOverlap: the worker that delivers is left alone from pickup to end; progress under continued
  interference is not stated.
- Verification.VerifyExportFile: starts from parsed lines, so parse errors other than a ragged line, and the stripping of a
  byte order mark, are not covered.
- Storage.Bucket.DeleteChunks: writes of others between two pages are not stated there; in the step machine they are
  interleaved with the pages.
