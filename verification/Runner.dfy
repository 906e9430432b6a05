/** `runExportJob` as the program it is: a loop over local variables that writes to the job row, the checkpoint log
    and the object store (server/src/services/exportRunner.service.ts). A thrown error is a failed result. Its
    effect is proved to be that of the step machine's worker left alone. */
module Runner {
  import opened Common
  import opened Csv
  import opened RecordSource
  import opened Storage
  import opened Resume
  import opened Verification
  import opened Jobs
  import opened Protocol
  import opened Uninterrupted
  import opened Outcomes
  import CsvParser

  datatype End = End(sh: Shared, outcome: Outcome)

  /** Where the run of worker `k` ends. */
  ghost function EndOf(c: Config, sh: Shared, k: Worker): End {
    var e := RunAlone(c, sh, k);
    End(e.sh, e.k.pc.outcome)
  }

  // ---- One request at a time ------------------------------------------------------------

  lemma Next(c: Config, sh: Shared, k: Worker)
    requires !k.pc.Ended?
    ensures EndOf(c, sh, k) == EndOf(c, Act(c, sh, k).sh, Act(c, sh, k).k)
  {
    hide Act;
  }

  lemma NextAssemble(c: Config, sh: Shared, k: Worker)
    requires IsAssembling(k.pc)
    ensures EndOf(c, sh, k) == EndOf(c, ActAssemble(c, sh, k).sh, ActAssemble(c, sh, k).k)
  {
    hide EndOf, ActClaim, ActResume, ActBatch, ActAssemble, ActVerify, ActClose;
    Next(c, sh, k);
  }

  lemma NextVerify(c: Config, sh: Shared, k: Worker)
    requires IsVerifying(k.pc)
    ensures EndOf(c, sh, k) == EndOf(c, ActVerify(c, sh, k).sh, ActVerify(c, sh, k).k)
  {
    hide EndOf, ActClaim, ActResume, ActBatch, ActAssemble, ActVerify, ActClose;
    Next(c, sh, k);
  }

  lemma NextClose(c: Config, sh: Shared, k: Worker)
    requires !k.pc.Ended?
    requires !IsClaiming(k.pc) && !IsResuming(k.pc) && !IsBatching(k.pc) && !IsAssembling(k.pc) && !IsVerifying(k.pc)
    ensures EndOf(c, sh, k) == EndOf(c, ActClose(c, sh, k).sh, ActClose(c, sh, k).k)
  {
    hide EndOf, ActClaim, ActResume, ActBatch, ActAssemble, ActVerify, ActClose;
    Next(c, sh, k);
  }

  lemma NextBatch(c: Config, sh: Shared, k: Worker)
    requires IsBatching(k.pc)
    ensures EndOf(c, sh, k) == EndOf(c, ActBatch(c, sh, k).sh, ActBatch(c, sh, k).k)
  {
    hide EndOf, ActClaim, ActResume, ActBatch, ActAssemble, ActVerify, ActClose;
    Next(c, sh, k);
  }

  lemma AtEnd(c: Config, sh: Shared, k: Worker, outcome: Outcome)
    requires k.pc == Ended(outcome)
    ensures EndOf(c, sh, k) == End(sh, outcome)
  {
  }

  lemma AtCatch(c: Config, sh: Shared, k: Worker)
    requires k.pc.Catching?
    ensures EndOf(c, sh, k) == End(WriteStatus(sh, Status.Failed), Threw)
  {
    hide EndOf, DropChunks;
    NextClose(c, sh, k);
    AtEnd(c, WriteStatus(sh, Status.Failed), k.At(Ended(Threw)), Threw);
  }

  lemma AtFailing(c: Config, sh: Shared, k: Worker)
    requires k.pc.Failing?
    ensures EndOf(c, sh, k) == End(WriteStatus(sh, Status.Failed), GaveUp(k.pc.reason))
  {
    hide EndOf, DropChunks;
    NextClose(c, sh, k);
    AtEnd(c, WriteStatus(sh, Status.Failed), k.At(Ended(GaveUp(k.pc.reason))), GaveUp(k.pc.reason));
  }

  // ---- Specifications of the helpers -----------------------------------------------------

  function Claimed(c: Config, sh: Shared): Shared {
    var running := WriteStatus(sh, Running);
    WriteJob(running, StampStart(running.job, sh.now))
  }

  /** The chunks from `next` on, appended to `written`; nothing if one is missing. */
  function Assembled(c: Config, sh: Shared, batches: nat, next: nat, written: string): Option<string>
    decreases batches + 1 - next
  {
    if next > batches then Some(written)
    else
      var chunk := Chunk(c, sh, next);
      if chunk.None? then None else Assembled(c, sh, batches, next + 1, written + chunk.value)
  }

  predicate HasChunks(jobId: string, objects: Objects, n: nat) {
    forall m :: 1 <= m <= n ==> ChunkKey(jobId, m) in objects
  }

  /** The bytes of the first `n` chunks in batch order. */
  function ChunksUpTo(jobId: string, objects: Objects, n: nat): string
    requires forall m :: 1 <= m <= n ==> ChunkKey(jobId, m) in objects
  {
    if n == 0 then "" else ChunksUpTo(jobId, objects, n - 1) + objects[ChunkKey(jobId, n)]
  }

  lemma AssembledNext(c: Config, sh: Shared, batches: nat, n: nat, written: string)
    requires n <= batches
    ensures
      var chunk := Chunk(c, sh, n);
      Assembled(c, sh, batches, n, written)
        == if chunk.None? then None else Assembled(c, sh, batches, n + 1, written + chunk.value)
  {
  }

  lemma AssembledEnd(c: Config, sh: Shared, batches: nat, n: nat, written: string)
    requires n > batches
    ensures Assembled(c, sh, batches, n, written) == Some(written)
  {
  }

  /** Assembly from chunk `n` on, when the first `n` are written, ends with all of them in order, or
      finds one missing. */
  lemma {:induction false} AssembledMeans(c: Config, sh: Shared, batches: nat, n: nat, header: string)
    requires n <= batches && forall m :: 1 <= m <= n ==> ChunkKey(c.jobId, m) in sh.objects
    ensures
      var file := Assembled(c, sh, batches, n + 1, header + ChunksUpTo(c.jobId, sh.objects, n));
      && (file.Some? <==> HasChunks(c.jobId, sh.objects, batches))
      && (file.Some? ==> file.value == header + ChunksUpTo(c.jobId, sh.objects, batches))
    decreases batches - n
  {
    hide ChunkKey;
    if n < batches && ChunkKey(c.jobId, n + 1) in sh.objects {
      AssembledMeans(c, sh, batches, n + 1, header);
      var done := ChunksUpTo(c.jobId, sh.objects, n);
      var next := sh.objects[ChunkKey(c.jobId, n + 1)];
      assert header + done + next == header + (done + next);
    }
  }

  // ---- The machine, phase by phase --------------------------------------------------------

  lemma ClaimRuns(c: Config, sh: Shared, batchSize: nat)
    requires !IsTerminal(sh.job.status) && !sh.job.cancelRequested
    ensures EndOf(c, sh, NewWorker(batchSize))
      == if IsClaimable(sh.job, sh.now - c.stallTimeout) then EndOf(c, Claimed(c, sh), NewWorker(batchSize).At(Loading))
         else End(sh, Skipped)
  {
    hide EndOf, ActResume, ActBatch, ActAssemble, ActVerify, ActClose;
    var k := NewWorker(batchSize);
    Next(c, sh, k);
    Next(c, sh, k.At(Admitted));
    var claiming := k.At(Claiming(sh.now - c.stallTimeout));
    Next(c, sh, claiming);
    if IsClaimable(sh.job, sh.now - c.stallTimeout) {
      Next(c, WriteStatus(sh, Running), k.At(Stamping));
    } else {
      AtEnd(c, sh, claiming.At(Ended(Skipped)), Skipped);
    }
  }

  lemma EarlyExitRuns(c: Config, sh: Shared, batchSize: nat)
    ensures IsTerminal(sh.job.status) ==> EndOf(c, sh, NewWorker(batchSize)) == End(sh, Skipped)
    ensures !IsTerminal(sh.job.status) && sh.job.cancelRequested ==>
      EndOf(c, sh, NewWorker(batchSize)) == End(WriteStatus(sh, Cancelled), WasCancelled)
  {
    hide EndOf, ActResume, ActBatch, ActAssemble, ActVerify, ActClose;
    var k := NewWorker(batchSize);
    Next(c, sh, k);
    if IsTerminal(sh.job.status) {
      AtEnd(c, sh, k.At(Ended(Skipped)), Skipped);
    } else if sh.job.cancelRequested {
      Next(c, sh, k.At(CancellingEarly));
      AtEnd(c, WriteStatus(sh, Cancelled), k.At(Ended(WasCancelled)), WasCancelled);
    }
  }

  lemma LoadRuns(c: Config, sh: Shared, k: Worker)
    requires k.pc.Loading?
    ensures
      var loaded := LoadResume(Ordered(sh.log));
      EndOf(c, sh, k)
        == if loaded.Failure? then End(WriteStatus(sh, Status.Failed), Threw)
           else EndOf(c, WriteJob(sh, Reconciled(sh.job, loaded.value, sh.now)), EnterLoop(k, loaded.value))
  {
    hide EndOf, ActClaim, ActBatch, ActAssemble, ActVerify, ActClose, LoadResume, Ordered;
    var loaded := LoadResume(Ordered(sh.log));
    Next(c, sh, k);
    if loaded.Failure? {
      AtCatch(c, sh, k.At(Catching));
    } else {
      Next(c, sh, k.At(Reconciling(loaded.value)));
      if !ProgressMatches(sh.job, loaded.value) {
        Next(c, sh, k.At(Correcting(loaded.value)));
      }
    }
  }

  lemma CancelRuns(c: Config, sh: Shared, k: Worker)
    requires k.pc.LoopHead? && k.count < c.limit && sh.job.cancelRequested
    ensures EndOf(c, sh, k) == End(DropChunks(c, WriteStatus(sh, Cancelled)), WasCancelled)
  {
    hide EndOf, Act, DropChunks, FetchRecordBatch, SerializeChunk, Chunk;
    NextBatch(c, sh, k);
    NextClose(c, sh, k.At(Cancelling));
    var sh' := WriteStatus(sh, Cancelled);
    NextClose(c, sh', k.At(Discarding));
    AtEnd(c, DropChunks(c, sh'), k.At(Ended(WasCancelled)), WasCancelled);
  }

  lemma FetchRuns(c: Config, sh: Shared, k: Worker, rows: seq<Row>)
    requires k.pc.LoopHead? && k.count < c.limit && !sh.job.cancelRequested
    requires rows == FetchRecordBatch(sh.table, k.cursor, c.snapshotMaxId, BatchLimit(c, k))
    ensures EndOf(c, sh, k)
      == if rows == [] then End(WriteStatus(sh, Status.Failed), GaveUp(Exhausted))
         else EndOf(c, sh, k.At(Putting(rows)))
  {
    hide EndOf, ActClaim, ActResume, ActAssemble, ActVerify, ActClose, FetchRecordBatch;
    Next(c, sh, k);
    Next(c, sh, k.At(Fetching));
    if rows == [] {
      AtFailing(c, sh, k.At(Failing(Exhausted)));
    }
  }

  lemma OwnPutIsThere(c: Config, sh: Shared, n: nat, body: string)
    ensures Chunk(c, PutChunk(c, sh, n, body), n) == Some(body)
  {
  }

  lemma WriteRuns(c: Config, sh: Shared, k: Worker)
    requires k.pc.Putting? && k.pc.rows != []
    ensures
      var rows := k.pc.rows;
      var sh' := PutChunk(c, sh, k.batch, SerializeChunk(rows));
      EndOf(c, sh, k)
        == if k.batch in sh.log then End(WriteStatus(sh', Status.Failed), Threw)
           else EndOf(c, Commit(sh', k, rows), AfterCommit(k, rows))
  {
    hide EndOf, ActClaim, ActResume, ActAssemble, ActVerify, ActClose, FetchRecordBatch, SerializeChunk, Chunk;
    hide Commit, AfterCommit;
    var rows := k.pc.rows;
    var sh' := PutChunk(c, sh, k.batch, SerializeChunk(rows));
    Next(c, sh, k);
    OwnPutIsThere(c, sh, k.batch, SerializeChunk(rows));
    var uploaded := k.(unsettled := true);
    Next(c, sh', uploaded.At(Confirming(rows)));
    Next(c, sh', uploaded.At(Committing(rows)));
    CommitIgnoresPlace(sh', k, uploaded.At(Committing(rows)), rows);
    if k.batch in sh.log {
      AtCatch(c, sh', uploaded.At(Catching));
    }
  }

  lemma LeaveLoopRuns(c: Config, sh: Shared, k: Worker)
    requires k.pc.LoopHead? && k.count >= c.limit
    ensures
      var loaded := LoadResume(Ordered(sh.log));
      EndOf(c, sh, k)
        == if k.count != c.limit then End(WriteStatus(sh, Status.Failed), GaveUp(WrongCount))
           else if loaded.Failure? then End(WriteStatus(sh, Status.Failed), Threw)
           else if loaded.value.rowsWritten != c.limit then End(WriteStatus(sh, Status.Failed), GaveUp(LogMismatch))
           else EndOf(c, WriteStatus(sh, Verifying), k.At(Assembling(loaded.value.checkpointCount, 1, CsvHeader())))
  {
    hide EndOf, LoadResume, Ordered, CsvHeader, FetchRecordBatch;
    var loaded := LoadResume(Ordered(sh.log));
    NextBatch(c, sh, k);
    if k.count != c.limit {
      AtFailing(c, sh, k.At(Failing(WrongCount)));
    } else {
      NextAssemble(c, sh, k.At(CrossChecking));
      if loaded.Failure? {
        AtCatch(c, sh, k.At(Catching));
      } else if loaded.value.rowsWritten != c.limit {
        AtFailing(c, sh, k.At(Failing(LogMismatch)));
      } else {
        NextAssemble(c, sh, k.At(Promoting(loaded.value.checkpointCount)));
      }
    }
  }

  lemma {:induction false} AssembleRuns(c: Config, sh: Shared, k: Worker)
    requires k.pc.Assembling?
    ensures
      var file := Assembled(c, sh, k.pc.batches, k.pc.next, k.pc.written);
      EndOf(c, sh, k)
        == if file.None? then End(WriteStatus(sh, Status.Failed), Threw)
           else EndOf(c, Publish(c, sh, file.value), k.At(Sizing))
    decreases if k.pc.Assembling? then k.pc.batches + 1 - k.pc.next else 0
  {
    hide EndOf, Assembled, Chunk, Publish, Worker.At;
    ChunkRuns(c, sh, k);
    if k.pc.next <= k.pc.batches {
      AssembledNext(c, sh, k.pc.batches, k.pc.next, k.pc.written);
      var chunk := Chunk(c, sh, k.pc.next);
      if chunk.Some? {
        var k' := k.(pc := Assembling(k.pc.batches, k.pc.next + 1, k.pc.written + chunk.value));
        AssembleRuns(c, sh, k');
        PlaceIsAll(k, k', Sizing);
      }
    } else {
      AssembledEnd(c, sh, k.pc.batches, k.pc.next, k.pc.written);
    }
  }

  lemma PlaceIsAll(k: Worker, k': Worker, pc: Pc)
    requires k' == k.(pc := k'.pc)
    ensures k.At(pc) == k'.At(pc)
  {
  }

  /** One chunk of the assembly, or its end. */
  lemma ChunkRuns(c: Config, sh: Shared, k: Worker)
    requires k.pc.Assembling?
    ensures
      EndOf(c, sh, k)
        == if k.pc.next > k.pc.batches then EndOf(c, Publish(c, sh, k.pc.written), k.At(Sizing))
           else if Chunk(c, sh, k.pc.next).None? then End(WriteStatus(sh, Status.Failed), Threw)
           else EndOf(c, sh,
                  k.(pc := Assembling(k.pc.batches, k.pc.next + 1, k.pc.written + Chunk(c, sh, k.pc.next).value)))
  {
    hide EndOf, Chunk, Publish;
    NextAssemble(c, sh, k);
    if k.pc.next <= k.pc.batches && Chunk(c, sh, k.pc.next).None? {
      AtCatch(c, sh, k.At(Catching));
    }
  }

  lemma HeadRuns(c: Config, sh: Shared, k: Worker, file: string)
    requires k.pc.Sizing? && Final(c, sh) == Some(file) && file != ""
    ensures EndOf(c, sh, k) == EndOf(c, sh, k.At(Auditing(|file|)))
  {
    hide EndOf, Act, Final, AuditBody, IsReadable;
    NextVerify(c, sh, k);
    NextVerify(c, sh, k.At(Heading));
  }

  lemma VerifyRuns(c: Config, sh: Shared, k: Worker, file: string)
    requires k.pc.Sizing? && Final(c, sh) == Some(file) && file != ""
    ensures
      var report := AuditBody(c, file, |file|);
      EndOf(c, sh, k)
        == if IsReadable(file) then
             EndOf(c, AddReport(sh, report), k.At(if report.result.Passed() then Completing else NotingKey))
           else End(WriteStatus(sh, Status.Failed), Threw)
  {
    hide EndOf, Act, Final, AuditBody, IsReadable;
    HeadRuns(c, sh, k, file);
    NextVerify(c, sh, k.At(Auditing(|file|)));
    if IsReadable(file) {
      NextVerify(c, sh, k.At(Recording(AuditBody(c, file, |file|))));
    } else {
      AtCatch(c, sh, k.At(Catching));
    }
  }

  lemma RejectRuns(c: Config, sh: Shared, k: Worker)
    requires k.pc.NotingKey?
    ensures
      var noted := WriteJob(sh, SetFileKey(sh.job, FinalKey(c.jobId), sh.now));
      EndOf(c, sh, k) == End(WriteStatus(noted, Status.Failed), GaveUp(VerificationFailed))
  {
    hide EndOf, Act, DropChunks;
    NextClose(c, sh, k);
    AtFailing(c, WriteJob(sh, SetFileKey(sh.job, FinalKey(c.jobId), sh.now)), k.At(Failing(VerificationFailed)));
  }

  lemma CompleteRuns(c: Config, sh: Shared, k: Worker)
    requires k.pc.Completing?
    ensures EndOf(c, sh, k)
      == End(DropChunks(c, WriteJob(sh, Complete(sh.job, FinalKey(c.jobId), sh.now))), RanToCompletion)
  {
    hide EndOf, Act, DropChunks;
    var sh' := WriteJob(sh, Complete(sh.job, FinalKey(c.jobId), sh.now));
    NextClose(c, sh, k);
    NextClose(c, sh', k.At(Cleaning));
    AtEnd(c, DropChunks(c, sh'), k.At(Ended(RanToCompletion)), RanToCompletion);
  }

  // ---- The program ---------------------------------------------------------------------------

  /** What a failing request throws. */
  datatype RunError =
    | LogRefused(LogError)
    | ObjectFault(StorageError)
    | UniqueViolation
    | Unreadable(AuditError)

  type PageScript = seq<(set<string>, Option<string>)>

  class Backend {
    const c: Config
    const bucket: Bucket
    var now: int
    var table: Table
    var job: JobRow
    var log: CheckpointLog
    var reports: seq<Report>

    constructor (c: Config, bucket: Bucket, table: Table, now: int)
      ensures this.c == c && this.bucket == bucket
      ensures job == JobRow(Pending, None, 0, None, None, false, now)
      ensures View() == Shared(now, table, job, map[], [], bucket.objects, bucket.puts)
    {
      this.c, this.bucket, this.now, this.table, this.job := c, bucket, now, table, NewRow(now);
      log, reports := map[], [];
    }

    /** The database and the store as the step machine sees them. */
    function View(): Shared
      reads this, bucket
    {
      Shared(now, table, job, log, reports, bucket.objects, bucket.puts)
    }

    method ClaimJob() returns (claimed: bool)
      modifies this
      ensures claimed <==>
        || old(job).status in {Pending, Queued, Interrupted, Resuming, Status.Failed}
        || (old(job).status == Running && old(job).updatedAt < now - c.stallTimeout)
      ensures claimed ==>
        && job.status == Running && job.updatedAt == now
        && job.startedAt == (if old(job).startedAt.Some? then old(job).startedAt else Some(now))
        && job.lastExportedId == old(job).lastExportedId && job.exportedRowCount == old(job).exportedRowCount
        && job.fileKey == old(job).fileKey && job.cancelRequested == old(job).cancelRequested
      ensures claimed == IsClaimable(old(job), now - c.stallTimeout)
      ensures View() == if claimed then Claimed(c, old(View())) else old(View())
    {
      var staleCutoff := now - c.stallTimeout;
      if !IsClaimable(job, staleCutoff) {
        return false;
      }
      job := SetStatus(job, Running, now);
      if job.startedAt.None? {
        job := job.(startedAt := Some(now), updatedAt := now);
      }
      return true;
    }

    method ReconcileJobProgress(state: ResumeState)
      modifies this
      ensures View() == WriteJob(old(View()), Reconciled(old(job), state, now))
      ensures job.exportedRowCount == state.rowsWritten
      ensures (if job.lastExportedId.Some? then job.lastExportedId.value else 0) == state.lastExportedId
      ensures job.status == old(job).status && job.fileKey == old(job).fileKey && job.startedAt == old(job).startedAt
      ensures job.cancelRequested == old(job).cancelRequested
      ensures job == old(job) || (job.updatedAt == now
        && job.lastExportedId == if state.lastExportedId == 0 then None else Some(state.lastExportedId))
      ensures ProgressMatches(old(job), state) ==> job == old(job)
    {
      var jobLastId := if job.lastExportedId.Some? then job.lastExportedId.value else 0;
      if jobLastId == state.lastExportedId && job.exportedRowCount == state.rowsWritten {
        return;
      }
      job := job.(
        lastExportedId := if state.lastExportedId == 0 then None else Some(state.lastExportedId),
        exportedRowCount := state.rowsWritten,
        updatedAt := now);
    }

    method FailJob()
      modifies this
      ensures job.status == Status.Failed && job.updatedAt == now
      ensures job.lastExportedId == old(job).lastExportedId && job.exportedRowCount == old(job).exportedRowCount
      ensures job.fileKey == old(job).fileKey && job.cancelRequested == old(job).cancelRequested
      ensures View() == WriteStatus(old(View()), Status.Failed)
    {
      job := SetStatus(job, Status.Failed, now);
    }

    /** Streams header and chunks into the final object; a missing chunk publishes nothing. */
    method AssembleFinalCsv(batchCount: nat) returns (r: Result<nat, RunError>)
      modifies bucket
      ensures
        var file := Assembled(c, old(View()), batchCount, 1, CsvHeader());
        && r.Success? == file.Some?
        && View() == (if file.Some? then Publish(c, old(View()), file.value) else old(View()))
        && (file.Some? ==> r.value == |file.value|)
      ensures r.Success? <==> HasChunks(c.jobId, old(bucket.objects), batchCount)
      ensures r.Success? ==>
        && HasChunks(c.jobId, old(bucket.objects), batchCount)
        && bucket.objects == old(bucket.objects)[FinalKey(c.jobId) :=
             CsvHeader() + ChunksUpTo(c.jobId, old(bucket.objects), batchCount)]
    {
      AssembledMeans(c, View(), batchCount, 0, CsvHeader());
      assert CsvHeader() + "" == CsvHeader();
      hide Chunk, ChunksUpTo, CsvHeader, FinalKey, ChunkKey, Assembled, HasChunks;
      var written := CsvHeader();
      for batchNumber := 1 to batchCount + 1
        invariant Assembled(c, View(), batchCount, batchNumber, written)
               == Assembled(c, View(), batchCount, 1, CsvHeader())
        invariant View() == old(View())
      {
        AssembledNext(c, View(), batchCount, batchNumber, written);
        var source := Chunk(c, View(), batchNumber);
        if source.None? {
          return Failure(ObjectFault(NotFound(OwnKey(c, batchNumber))));
        }
        written := written + source.value;
      }
      AssembledEnd(c, View(), batchCount, batchCount + 1, written);
      bucket.objects := bucket.objects[FinalKey(c.jobId) := written];
      return Success(|written|);
    }

    /** Audits the published file and records the result; a file the parser cannot get through is not recorded. */
    method VerifyFinalFile() returns (r: Result<bool, RunError>)
      modifies this
      ensures
        var file := Final(c, old(View()));
        && (r.Success? <==> file.Some? && IsReadable(file.value))
        && (r.Failure? ==> View() == old(View()))
        && (r.Success? ==>
             var report := AuditBody(c, file.value, |file.value|);
             r.value == report.result.Passed() && View() == AddReport(old(View()), report))
    {
      hide IsRagged, Audit;
      var stored := Lookup(bucket.objects, FinalKey(c.jobId));
      if stored.None? {
        return Failure(ObjectFault(NotFound(FinalKey(c.jobId))));
      }
      var text := stored.value;
      var lines := CsvParser.ParseCsv(text);
      var result := Verification.VerifyExportFile(c.readId, lines, |text|, c.limit, c.snapshotMaxId);
      if result.Failure? {
        return Failure(Unreadable(result.error));
      }
      reports := reports + [Report(result.value, text)];
      return Success(result.value.Passed());
    }

    /** Write, confirm, and only then checkpoint and progress in one transaction. `k` is the step machine's worker. */
    method ExportBatch(batchNumber: nat, rows: seq<Row>, exportedRowCount: nat, ghost k: Worker)
      returns (r: Result<nat, RunError>)
      requires rows != [] && k.batch == batchNumber && k.count == exportedRowCount
      modifies this, bucket
      ensures r.Success? <==> batchNumber !in old(log)
      ensures
        var sh := PutChunk(c, old(View()), batchNumber, SerializeChunk(rows));
        View() == if r.Success? then Commit(sh, k, rows) else sh
      ensures r.Success? ==> r.value == RowId(rows[|rows| - 1])
    {
      hide SerializeChunk, RowId;
      var batchLastId := RowId(rows[|rows| - 1]);
      var payload := SerializeChunk(rows);
      var key := ChunkKey(c.jobId, batchNumber);
      var put := bucket.PutObjectVerified(key, payload, None);
      match put
      case Failure(error) => return Failure(ObjectFault(error));
      case Success(size) =>
      if batchNumber in log {
        return Failure(UniqueViolation);
      }
      log := log[batchNumber := Entry(batchLastId, |rows|)];
      job := SetProgress(job, Some(batchLastId), exportedRowCount + |rows|, now);
      return Success(batchLastId);
    }

    /** From a full count to the end: cross-check, assembly, verification and the completion gate. */
    method Finish(exportedRowCount: nat, script: PageScript, ghost k: Worker) returns (r: Result<Outcome, RunError>)
      requires k.pc.LoopHead? && k.count == exportedRowCount >= c.limit
      modifies this, bucket
      ensures r.Success? ==> EndOf(c, old(View()), k) == End(View(), r.value)
      ensures r.Failure? ==> EndOf(c, old(View()), k) == End(WriteStatus(View(), Status.Failed), Threw)
    {
      hide EndOf, LoadResume, Ordered, Assembled, CsvHeader, AuditBody, IsReadable, DropChunks, Final;
      LeaveLoopRuns(c, View(), k);
      if exportedRowCount != c.limit {
        FailJob();
        return Success(GaveUp(WrongCount));
      }
      var finalState := LoadResumeState(Ordered(log));
      if finalState.Failure? {
        return Failure(LogRefused(finalState.error));
      }
      if finalState.value.rowsWritten != c.limit {
        FailJob();
        return Success(GaveUp(LogMismatch));
      }
      job := SetStatus(job, Verifying, now);
      r := AssembleAndVerify(finalState.value.checkpointCount, script, k);
    }

    method AssembleAndVerify(batchCount: nat, script: PageScript, ghost k: Worker)
      returns (r: Result<Outcome, RunError>)
      modifies this, bucket
      ensures
        var start := k.At(Assembling(batchCount, 1, CsvHeader()));
        && (r.Success? ==> EndOf(c, old(View()), start) == End(View(), r.value))
        && (r.Failure? ==> EndOf(c, old(View()), start) == End(WriteStatus(View(), Status.Failed), Threw))
    {
      hide EndOf, Assembled, CsvHeader, AuditBody, IsReadable;
      AssembleRuns(c, View(), k.At(Assembling(batchCount, 1, CsvHeader())));
      ghost var file := Assembled(c, View(), batchCount, 1, CsvHeader());
      var assembled := AssembleFinalCsv(batchCount);
      if assembled.Failure? {
        return Failure(assembled.error);
      }
      HeaderIsNotEmpty();
      AssembledIsNotEmpty(c, old(View()), batchCount, 1, CsvHeader());
      VerifyRuns(c, View(), k.At(Sizing), file.value);
      var verification := VerifyFinalFile();
      match verification
      case Failure(error) => return Failure(error);
      case Success(passed) => r := Close(passed, script, k);
    }

    method Close(passed: bool, script: PageScript, ghost k: Worker) returns (r: Result<Outcome, RunError>)
      modifies this, bucket
      ensures r.Success?
      ensures EndOf(c, old(View()), k.At(if passed then Completing else NotingKey)) == End(View(), r.value)
    {
      hide EndOf, WithoutChunks;
      if !passed {
        RejectRuns(c, View(), k.At(NotingKey));
        job := SetFileKey(job, FinalKey(c.jobId), now);
        FailJob();
        return Success(GaveUp(VerificationFailed));
      }
      CompleteRuns(c, View(), k.At(Completing));
      job := Complete(job, FinalKey(c.jobId), now);
      var removed := bucket.DeleteChunks(c.jobId, script, None);
      return Success(RanToCompletion);
    }

    /** The try block: resume, the batch loop, and what follows it. */
    method RunClaimedJob(batchSize: nat, script: PageScript) returns (r: Result<Outcome, RunError>)
      modifies this, bucket
      ensures
        var start := NewWorker(batchSize).At(Loading);
        && (r.Success? ==> EndOf(c, old(View()), start) == End(View(), r.value))
        && (r.Failure? ==> EndOf(c, old(View()), start) == End(WriteStatus(View(), Status.Failed), Threw))
    {
      hide EndOf, LoadResume, Ordered, WithoutChunks, FetchRecordBatch, Commit, PutChunk, SerializeChunk;
      ghost var end := EndOf(c, View(), NewWorker(batchSize).At(Loading));
      LoadRuns(c, View(), NewWorker(batchSize).At(Loading));
      var resume := LoadResumeState(Ordered(log));
      if resume.Failure? {
        return Failure(LogRefused(resume.error));
      }
      ReconcileJobProgress(resume.value);
      var lastExportedId, exportedRowCount, batchNumber :=
        resume.value.lastExportedId, resume.value.rowsWritten, resume.value.nextBatchNumber;
      ghost var k := EnterLoop(NewWorker(batchSize).At(Loading), resume.value);
      while exportedRowCount < c.limit
        invariant k == Worker(LoopHead, batchSize, lastExportedId, exportedRowCount, batchNumber, false)
        invariant EndOf(c, View(), k) == end
        decreases c.limit - exportedRowCount
      {
        if job.cancelRequested {
          CancelRuns(c, View(), k);
          job := SetStatus(job, Cancelled, now);
          var removed := bucket.DeleteChunks(c.jobId, script, None);
          return Success(WasCancelled);
        }
        var remaining := c.limit - exportedRowCount;
        var limit := if batchSize < remaining then batchSize else remaining;
        var rows := FetchRecordBatch(table, lastExportedId, c.snapshotMaxId, limit);
        FetchRuns(c, View(), k, rows);
        if |rows| == 0 {
          FailJob();
          return Success(GaveUp(Exhausted));
        }
        WriteRuns(c, View(), k.At(Putting(rows)));
        var written := ExportBatch(batchNumber, rows, exportedRowCount, k.At(Putting(rows)));
        if written.Failure? {
          return Failure(written.error);
        }
        k := AfterCommit(k.At(Putting(rows)), rows);
        lastExportedId := written.value;
        exportedRowCount := exportedRowCount + |rows|;
        batchNumber := batchNumber + 1;
      }
      r := Finish(exportedRowCount, script, k);
    }

    /** One whole run, with nobody else at work: the row, the log, the reports, the store and the outcome are those
        of the step machine's worker left alone, whatever state it finds. */
    method RunExportJob(batchSize: nat, script: PageScript) returns (outcome: Outcome)
      modifies this, bucket
      ensures
        var e := RunAlone(c, old(View()), NewWorker(batchSize));
        View() == e.sh && e.k.pc == Ended(outcome)
      ensures c.Valid() ==> Leaves(c, old(View()), View(), outcome)
    {
      hide RunAlone, Leaves;
      if c.Valid() {
        OutcomeTells(c, View(), batchSize);
      }
      EarlyExitRuns(c, View(), batchSize);
      if job.status == Completed {
        return Skipped;
      }
      if job.status == Cancelled {
        return Skipped;
      }
      if job.cancelRequested {
        job := SetStatus(job, Cancelled, now);
        return WasCancelled;
      }
      ClaimRuns(c, View(), batchSize);
      var claimed := ClaimJob();
      if !claimed {
        return Skipped;
      }
      var result := RunClaimedJob(batchSize, script);
      if result.Failure? {
        FailJob();
        return Threw;
      }
      return result.value;
    }
  }

  lemma HeaderIsNotEmpty()
    ensures CsvHeader() != ""
  {
    assert CsvHeader() == Join(COLUMNS, ",") + "\n";
  }

  lemma {:induction false} AssembledIsNotEmpty(c: Config, sh: Shared, batches: nat, next: nat, written: string)
    requires written != "" && Assembled(c, sh, batches, next, written).Some?
    ensures Assembled(c, sh, batches, next, written).value != ""
    decreases batches + 1 - next
  {
    if next <= batches {
      AssembledIsNotEmpty(c, sh, batches, next + 1, written + Chunk(c, sh, next).value);
    }
  }
}
