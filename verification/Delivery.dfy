/** Over a stable table, a job whose checkpointed chunks are in place and that nobody cancels is delivered by the
    next worker that is left alone: the dataset never runs out and verification always passes. */
module Delivery {
  import opened Common
  import opened Csv
  import opened RecordSource
  import opened Storage
  import opened Resume
  import opened Verification
  import opened Jobs
  import opened Protocol
  import opened LogSafety
  import opened Uninterrupted
  import CsvParser
  import DataSafety
  import Decimal
  import SoloSafety

  /** The file the export is to produce. */
  function Target(c: Config, t: Table): string {
    CsvFile(DataSafety.Rows(c, t, c.limit))
  }

  /** What batch `n` of the log holds. */
  function ChunkText(c: Config, t: Table, cps: seq<Checkpoint>, n: nat): string
    requires 1 <= n <= |cps|
  {
    SerializeChunk(FetchRecordBatch(t, LastId(cps[..n - 1]), c.snapshotMaxId, cps[n - 1].rowsWritten))
  }

  ghost predicate ChunksInPlace(c: Config, t: Table, sh: Shared) {
    forall n: nat :: 1 <= n <= |Log(sh)| ==> Chunk(c, sh, n) == Some(ChunkText(c, t, Log(sh), n))
  }

  /** The log and its chunks are those of an export of `t`. */
  ghost predicate InPlace(c: Config, t: Table, sh: Shared) {
    && LogOk(c, Log(sh))
    && DataSafety.LogFits(c, t, Log(sh))
    && ChunksInPlace(c, t, sh)
  }

  predicate IsCalm(c: Config, t: Table, sh: Shared) {
    DataSafety.IsStable(c, t, sh.table) && !sh.job.cancelRequested
  }

  predicate IsFull(c: Config, cps: seq<Checkpoint>) {
    Total(cps) == c.limit
  }

  function TargetReport(c: Config, t: Table): Report {
    AuditBody(c, Target(c, t), |Target(c, t)|)
  }

  predicate IsFiled(c: Config, t: Table, sh: Shared) {
    sh.reports != [] && sh.reports[|sh.reports| - 1] == TargetReport(c, t)
  }

  predicate IsPublished(c: Config, t: Table, sh: Shared) {
    Final(c, sh) == Some(Target(c, t))
  }

  /** Done: the row says so, the file is the target, its report is the latest and passed, and no chunk is left. */
  ghost predicate IsDelivered(c: Config, t: Table, sh: Shared) {
    && sh.job.status == Completed && sh.job.fileKey == Some(FinalKey(c.jobId))
    && IsPublished(c, t, sh)
    && IsFiled(c, t, sh) && TargetReport(c, t).result.Passed()
    && forall n: nat :: Chunk(c, sh, n) == None
  }

  // ---- On the way there -----------------------------------------------------------------

  predicate ClaimTrack(c: Config, sh: Shared, k: Worker) {
    match k.pc
    case Reading => IsClaimable(sh.job, sh.now - c.stallTimeout)
    case Admitted => IsClaimable(sh.job, sh.now - c.stallTimeout)
    case Claiming(cutoff) => IsClaimable(sh.job, cutoff)
    case Stamping => true
    case _ => false
  }

  predicate ResumeTrack(sh: Shared, k: Worker) {
    k.pc.Loading? || ((k.pc.Reconciling? || k.pc.Correcting?) && k.pc.state == Position(Log(sh)))
  }

  predicate BatchTrack(c: Config, t: Table, sh: Shared, k: Worker) {
    && k.batch == |Log(sh)| + 1 && k.cursor == LastId(Log(sh)) && k.count == Total(Log(sh))
    && (!k.pc.LoopHead? ==> k.count < c.limit)
    && (HoldsBatch(k.pc) ==>
         k.pc.rows != [] && k.pc.rows == FetchRecordBatch(t, k.cursor, c.snapshotMaxId, BatchLimit(c, k)))
    && (k.pc.Confirming? || k.pc.Committing? ==> Chunk(c, sh, k.batch) == Some(SerializeChunk(k.pc.rows)))
  }

  predicate AssembleTrack(c: Config, t: Table, sh: Shared, k: Worker) {
    && IsFull(c, Log(sh))
    && (k.pc.Promoting? || k.pc.Assembling? ==> k.pc.batches == |Log(sh)|)
    && (k.pc.Assembling? ==> DataSafety.AssemblyOk(c, t, Log(sh), k.pc.batches, k.pc.next, k.pc.written))
  }

  predicate VerifyTrack(c: Config, t: Table, k: Worker) {
    match k.pc
    case Auditing(size) => size == |Target(c, t)|
    case Recording(report) => report == TargetReport(c, t)
    case _ => true
  }

  ghost predicate CloseTrack(c: Config, t: Table, sh: Shared, k: Worker) {
    || (k.pc.Completing? && IsFiled(c, t, sh))
    || (k.pc.Cleaning? && IsFiled(c, t, sh) && sh.job.status == Completed && sh.job.fileKey == Some(FinalKey(c.jobId)))
    || (k.pc == Ended(RanToCompletion) && IsDelivered(c, t, sh))
  }

  ghost predicate OnTrack(c: Config, t: Table, sh: Shared, k: Worker) {
    if IsClaiming(k.pc) then IsCalm(c, t, sh) && InPlace(c, t, sh) && ClaimTrack(c, sh, k)
    else if IsResuming(k.pc) then IsCalm(c, t, sh) && InPlace(c, t, sh) && ResumeTrack(sh, k)
    else if IsBatching(k.pc) then IsCalm(c, t, sh) && InPlace(c, t, sh) && BatchTrack(c, t, sh, k)
    else if IsAssembling(k.pc) then InPlace(c, t, sh) && AssembleTrack(c, t, sh, k)
    else if IsVerifying(k.pc) then IsPublished(c, t, sh) && VerifyTrack(c, t, k)
    else IsPublished(c, t, sh) && CloseTrack(c, t, sh, k)
  }

  ghost predicate Assumptions(c: Config, t: Table, k: Worker) {
    c.Valid() && DataSafety.HasTarget(c, t) && k.batchSize > 0 && ReadsDecimals(c.readId)
  }

  ghost predicate ReadsDecimals(readId: IdReader) {
    forall n: nat :: readId(Decimal.Print(n)) == Some(n)
  }

  // ---- The target passes ---------------------------------------------------------------

  lemma IdOfLine(readId: IdReader, header: Line, rows: seq<Row>, snapshotMaxId: nat, i: nat)
    requires ReadsDecimals(readId) && IdsWithin(rows, 0, snapshotMaxId) && 1 <= i <= |rows|
    ensures
      var line := ([header] + CsvParser.AllFields(rows))[i];
      |line| == WIDTH && readId(line[0]) == Some(RowId(rows[i - 1]))
  {
    hide RowId;
    assert ([header] + CsvParser.AllFields(rows))[i] == rows[i - 1].Fields();
    assert rows[i - 1].id == Decimal.Print(RowId(rows[i - 1]));
  }

  lemma LinesAreReadable(readId: IdReader, header: Line, rows: seq<Row>, snapshotMaxId: nat)
    requires ReadsDecimals(readId) && IdsWithin(rows, 0, snapshotMaxId)
    ensures AllReadable(readId, [header] + CsvParser.AllFields(rows))
  {
    hide RowId, IdsWithin, ReadsDecimals;
    var lines := [header] + CsvParser.AllFields(rows);
    forall i | 1 <= i < |lines|
      ensures |lines[i]| == WIDTH && readId(lines[i][0]).Some?
    {
      IdOfLine(readId, header, rows, snapshotMaxId, i);
    }
  }

  lemma LineIdAt(readId: IdReader, lines: seq<Line>, i: nat, id: int)
    requires i + 1 < |lines| && AllReadable(readId, lines) && readId(lines[i + 1][0]) == Some(id)
    ensures LineIds(readId, lines)[i] == id
  {
    hide AllReadable;
  }

  lemma LineOfRow(readId: IdReader, header: Line, rows: seq<Row>, snapshotMaxId: nat, i: nat)
    requires ReadsDecimals(readId) && IdsWithin(rows, 0, snapshotMaxId) && i < |rows|
    requires AllReadable(readId, [header] + CsvParser.AllFields(rows))
    ensures LineIds(readId, [header] + CsvParser.AllFields(rows))[i] == RowId(rows[i])
  {
    hide RowId, IdsWithin, ReadsDecimals, CsvParser.AllFields, AllReadable, LineIds;
    IdOfLine(readId, header, rows, snapshotMaxId, i + 1);
    LineIdAt(readId, [header] + CsvParser.AllFields(rows), i, RowId(rows[i]));
  }

  lemma LinesOfRows(readId: IdReader, header: Line, rows: seq<Row>, snapshotMaxId: nat)
    requires ReadsDecimals(readId) && IdsWithin(rows, 0, snapshotMaxId)
    ensures
      var lines := [header] + CsvParser.AllFields(rows);
      AllReadable(readId, lines) && forall i :: 0 <= i < |rows| ==> LineIds(readId, lines)[i] == RowId(rows[i])
  {
    hide RowId, IdsWithin, ReadsDecimals, CsvParser.AllFields, AllReadable, LineIds;
    LinesAreReadable(readId, header, rows, snapshotMaxId);
    forall i | 0 <= i < |rows|
      ensures LineIds(readId, [header] + CsvParser.AllFields(rows))[i] == RowId(rows[i])
    {
      LineOfRow(readId, header, rows, snapshotMaxId, i);
    }
  }

  /** The file of any rows that ascend within the snapshot passes the audit. */
  lemma OrderedFilePasses(c: Config, rows: seq<Row>)
    requires ReadsDecimals(c.readId) && IdsWithin(rows, 0, c.snapshotMaxId) && |rows| == c.limit
    ensures AuditBody(c, CsvFile(rows), |CsvFile(rows)|).result.Passed() && IsReadable(CsvFile(rows))
  {
    hide COLUMNS, RowId, CsvParser.Parse, CsvFile, Audit, LineIds;
    CsvParser.ParseOfFile(rows);
    LinesOfRows(c.readId, COLUMNS, rows, c.snapshotMaxId);
    FileIsNotEmpty(rows);
    AuditPassesIff(c.readId, [COLUMNS] + CsvParser.AllFields(rows), |CsvFile(rows)|, c.limit, c.snapshotMaxId);
    SoundIsNotRagged(c.readId, [COLUMNS] + CsvParser.AllFields(rows), |CsvFile(rows)|, c.limit, c.snapshotMaxId);
  }

  lemma FileIsNotEmpty(rows: seq<Row>)
    ensures |CsvFile(rows)| > 0
  {
    CsvParser.ParseOfFile(rows);
    assert CsvParser.Parse("") == [];
  }

  lemma TargetPasses(c: Config, t: Table)
    requires DataSafety.HasTarget(c, t) && ReadsDecimals(c.readId)
    ensures TargetReport(c, t).result.Passed() && |Target(c, t)| > 0 && IsReadable(Target(c, t))
  {
    hide IsReadable, FetchRecordBatch, CsvFile, AuditBody, IdsWithin;
    PageIsOrdered(t, 0, c.snapshotMaxId, c.limit);
    OrderedFilePasses(c, DataSafety.Rows(c, t, c.limit));
    FileIsNotEmpty(DataSafety.Rows(c, t, c.limit));
  }

  // ---- Each request keeps to the track ------------------------------------------------------

  lemma SameInPlace(c: Config, t: Table, sh: Shared, sh': Shared)
    requires InPlace(c, t, sh) && sh'.log == sh.log && sh'.objects == sh.objects
    ensures InPlace(c, t, sh')
  {
    hide LogOk, DataSafety.LogFits, ChunkText, Ordered;
    SoloSafety.SameObjects(c, sh, sh');
  }

  lemma ClaimStays(c: Config, t: Table, sh: Shared, k: Worker)
    requires IsClaiming(k.pc) && OnTrack(c, t, sh, k)
    ensures var e := ActClaim(c, sh, k); OnTrack(c, t, e.sh, e.k) && e.k.batchSize == k.batchSize
  {
    hide InPlace, DataSafety.IsStable, BatchTrack, AssembleTrack, VerifyTrack, CloseTrack, IsPublished;
    ClaimKeepsStore(c, sh, k);
    SameInPlace(c, t, sh, ActClaim(c, sh, k).sh);
  }

  lemma ClaimKeepsStore(c: Config, sh: Shared, k: Worker)
    ensures var sh' := ActClaim(c, sh, k).sh;
      sh'.table == sh.table && sh'.log == sh.log && sh'.objects == sh.objects
  {
  }

  lemma LoadStays(c: Config, t: Table, sh: Shared, k: Worker)
    requires k.pc.Loading? && OnTrack(c, t, sh, k)
    ensures ActResume(sh, k) == Effect(sh, k.At(Reconciling(Position(Log(sh)))))
  {
    hide DataSafety.LogFits, ChunksInPlace, DataSafety.IsStable, LoadResume, Ordered;
    LoadResumeIff(Log(sh));
  }

  /** Entering the loop puts the worker at the end of the log. */
  lemma EnteredLoop(c: Config, t: Table, sh: Shared, k: Worker)
    ensures BatchTrack(c, t, sh, EnterLoop(k, Position(Log(sh))))
  {
    hide Ordered, Total, LastId, Chunk, FetchRecordBatch;
  }

  lemma ReconcileKeepsStore(sh: Shared, k: Worker)
    requires k.pc.Reconciling? || k.pc.Correcting?
    ensures
      var e := ActResume(sh, k);
      && e.sh.table == sh.table && e.sh.log == sh.log && e.sh.objects == sh.objects
      && e.sh.job.cancelRequested == sh.job.cancelRequested
      && e.k.batchSize == k.batchSize
      && (e.k == EnterLoop(k, k.pc.state) || e.k == k.At(Correcting(k.pc.state)))
  {
    hide ProgressMatches;
  }

  lemma ReconcileStays(c: Config, t: Table, sh: Shared, k: Worker)
    requires (k.pc.Reconciling? || k.pc.Correcting?) && OnTrack(c, t, sh, k)
    ensures var e := ActResume(sh, k); OnTrack(c, t, e.sh, e.k) && e.k.batchSize == k.batchSize
  {
    hide InPlace, DataSafety.IsStable, Ordered, Position, ActResume, BatchTrack, AssembleTrack, VerifyTrack;
    hide CloseTrack, IsPublished;
    ReconcileKeepsStore(sh, k);
    SameInPlace(c, t, sh, ActResume(sh, k).sh);
    EnteredLoop(c, t, ActResume(sh, k).sh, k);
  }

  lemma ResumeStays(c: Config, t: Table, sh: Shared, k: Worker)
    requires IsResuming(k.pc) && OnTrack(c, t, sh, k)
    ensures var e := ActResume(sh, k); OnTrack(c, t, e.sh, e.k) && e.k.batchSize == k.batchSize
  {
    hide InPlace, IsCalm, ActResume, Ordered, Position;
    if k.pc.Loading? {
      LoadStays(c, t, sh, k);
    } else {
      ReconcileStays(c, t, sh, k);
    }
  }

  lemma LoopHeadStays(c: Config, t: Table, sh: Shared, k: Worker)
    requires k.pc.LoopHead? && OnTrack(c, t, sh, k)
    ensures var e := ActBatch(c, sh, k); OnTrack(c, t, e.sh, e.k)
  {
    hide ClaimTrack, ResumeTrack, VerifyTrack, CloseTrack, IsPublished;
    hide DataSafety.LogFits, ChunksInPlace, DataSafety.IsStable, Ordered, ValidLog;
  }

  /** Rows are asked for only while some are missing, so the page comes back full. */
  lemma PageIsFull(c: Config, t: Table, sh: Shared, k: Worker)
    requires Assumptions(c, t, k) && InPlace(c, t, sh)
    requires k.cursor == LastId(Log(sh)) && k.count == Total(Log(sh)) && k.count < c.limit
    ensures |FetchRecordBatch(t, k.cursor, c.snapshotMaxId, BatchLimit(c, k))| == BatchLimit(c, k) > 0
  {
    hide FetchRecordBatch, DataSafety.HasTarget, DataSafety.Rows, DataSafety.LogFits, LogOk, ChunksInPlace, Ordered;
    DataSafety.LogFitsWhole(c, t, Log(sh));
    DataSafety.PageCount(c, t, k.cursor, k.count, BatchLimit(c, k));
  }

  lemma FetchStays(c: Config, t: Table, sh: Shared, k: Worker)
    requires Assumptions(c, t, k) && k.pc.Fetching? && OnTrack(c, t, sh, k)
    ensures var e := ActBatch(c, sh, k); OnTrack(c, t, e.sh, e.k)
  {
    hide ClaimTrack, ResumeTrack, VerifyTrack, CloseTrack, IsPublished, AssembleTrack;
    hide FetchRecordBatch, InPlace, AgreeUpTo, Ordered, Assumptions;
    PagesOfAgreeingTables(sh.table, t, k.cursor, c.snapshotMaxId, BatchLimit(c, k));
    PageIsFull(c, t, sh, k);
  }

  lemma PutStays(c: Config, t: Table, sh: Shared, k: Worker)
    requires Assumptions(c, t, k) && k.pc.Putting? && OnTrack(c, t, sh, k)
    ensures var e := ActBatch(c, sh, k); OnTrack(c, t, e.sh, e.k)
  {
    hide ClaimTrack, ResumeTrack, VerifyTrack, CloseTrack, IsPublished, AssembleTrack;
    hide FetchRecordBatch, LogOk, DataSafety.LogFits, DataSafety.IsStable, ChunkText, Chunk, SerializeChunk, Ordered;
    hide DataSafety.HasTarget, ReadsDecimals;
    var body := SerializeChunk(k.pc.rows);
    forall n: nat
      ensures Chunk(c, PutChunk(c, sh, k.batch, body), n) == if n == k.batch then Some(body) else Chunk(c, sh, n)
    {
      ChunkAfterPut(c, sh, k.batch, body, n);
    }
  }

  lemma ConfirmStays(c: Config, t: Table, sh: Shared, k: Worker)
    requires k.pc.Confirming? && OnTrack(c, t, sh, k)
    ensures var e := ActBatch(c, sh, k); OnTrack(c, t, e.sh, e.k)
  {
    hide ClaimTrack, ResumeTrack, VerifyTrack, CloseTrack, IsPublished, AssembleTrack;
    hide FetchRecordBatch, InPlace, DataSafety.IsStable, Chunk, SerializeChunk, Ordered;
  }

  lemma TrackedBatch(c: Config, t: Table, sh: Shared, k: Worker)
    requires k.pc.Committing? && BatchTrack(c, t, sh, k) && LogOk(c, Log(sh))
    ensures OnLog(Log(sh), k.batch, k.cursor, k.count) && IsBatch(c, k.cursor, BatchLimit(c, k), k.pc.rows)
    ensures k.batch !in sh.log
  {
    hide FetchRecordBatch, Ordered, IdsWithin, ValidLog, Chunk, SerializeChunk;
    PageIsOrdered(t, k.cursor, c.snapshotMaxId, BatchLimit(c, k));
    assert Log(sh)[..|Log(sh)|] == Log(sh);
    KeysOfNumbered(sh.log);
  }

  lemma ChunksAfterCommit(c: Config, t: Table, sh: Shared, sh': Shared, cp: Checkpoint, rows: seq<Row>)
    requires ChunksInPlace(c, t, sh) && Log(sh') == Log(sh) + [cp]
    requires forall n: nat :: Chunk(c, sh', n) == Chunk(c, sh, n)
    requires Chunk(c, sh, |Log(sh)| + 1) == Some(SerializeChunk(rows))
    requires rows == FetchRecordBatch(t, LastId(Log(sh)), c.snapshotMaxId, cp.rowsWritten)
    ensures ChunksInPlace(c, t, sh')
  {
    hide FetchRecordBatch, Ordered, Chunk, SerializeChunk;
    var cps := Log(sh);
    forall n: nat | 1 <= n <= |cps| + 1
      ensures Chunk(c, sh', n) == Some(ChunkText(c, t, cps + [cp], n))
    {
      assert (cps + [cp])[..n - 1] == cps[..n - 1];
      if n == |cps| + 1 {
        assert cps[..n - 1] == cps;
      } else {
        assert Chunk(c, sh, n) == Some(ChunkText(c, t, cps, n));
      }
    }
  }

  lemma FitsAfterCommit(c: Config, t: Table, cps: seq<Checkpoint>, cp: Checkpoint, rows: seq<Row>)
    requires DataSafety.LogFits(c, t, cps) && rows != []
    requires rows == FetchRecordBatch(t, LastId(cps), c.snapshotMaxId, |rows|)
    requires cp.lastRecordId == Cursor(0, rows) && cp.rowsWritten == |rows|
    ensures DataSafety.LogFits(c, t, cps + [cp])
  {
    hide FetchRecordBatch, DataSafety.LogFits, DataSafety.Rows, Cursor, LastId, Total;
    DataSafety.LogFitsWhole(c, t, cps);
    DataSafety.RowsExtend(c, t, LastId(cps), Total(cps), |rows|);
    DataSafety.CursorOfExtended(DataSafety.Rows(c, t, Total(cps)), rows);
    TotalAppend(cps, cp);
    DataSafety.FitsAppend(c, t, cps, cp);
  }

  lemma CommitInPlace(c: Config, t: Table, sh: Shared, k: Worker)
    requires Assumptions(c, t, k) && k.pc.Committing? && InPlace(c, t, sh) && BatchTrack(c, t, sh, k) && k.pc.rows != []
    ensures k.batch !in sh.log
    ensures InPlace(c, t, Commit(sh, k, k.pc.rows))
    ensures Log(Commit(sh, k, k.pc.rows)) == Log(sh) + [Checkpoint(k.batch, Cursor(0, k.pc.rows), |k.pc.rows|)]
  {
    hide FetchRecordBatch, Ordered, Chunk, SerializeChunk, LogOk, DataSafety.LogFits, ChunksInPlace, Commit, Cursor;
    hide OnLog, IsBatch, Assumptions;
    var rows, cp := k.pc.rows, Checkpoint(k.batch, Cursor(0, k.pc.rows), |k.pc.rows|);
    TrackedBatch(c, t, sh, k);
    PageIsFull(c, t, sh, k);
    CommitKeepsLog(c, sh, k, rows);
    SoloSafety.CommitKeepsObjects(c, sh, k, rows);
    FitsAfterCommit(c, t, Log(sh), cp, rows);
    ChunksAfterCommit(c, t, sh, Commit(sh, k, rows), cp, rows);
  }

  lemma CommitRow(sh: Shared, k: Worker, rows: seq<Row>)
    requires rows != []
    ensures var sh' := Commit(sh, k, rows);
      sh'.table == sh.table && sh'.job.cancelRequested == sh.job.cancelRequested
    ensures AfterCommit(k, rows).cursor == Cursor(0, rows)
  {
  }

  lemma CommitStays(c: Config, t: Table, sh: Shared, k: Worker)
    requires Assumptions(c, t, k) && k.pc.Committing? && OnTrack(c, t, sh, k)
    ensures var e := ActBatch(c, sh, k); OnTrack(c, t, e.sh, e.k)
  {
    hide ClaimTrack, ResumeTrack, VerifyTrack, CloseTrack, IsPublished, AssembleTrack;
    hide FetchRecordBatch, InPlace, DataSafety.IsStable, Chunk, SerializeChunk, Ordered, Assumptions, Commit, Cursor;
    var rows := k.pc.rows;
    CommitInPlace(c, t, sh, k);
    CommitRow(sh, k, rows);
    TotalAppend(Log(sh), Checkpoint(k.batch, Cursor(0, rows), |rows|));
  }

  lemma BatchStays(c: Config, t: Table, sh: Shared, k: Worker)
    requires Assumptions(c, t, k) && IsBatching(k.pc) && OnTrack(c, t, sh, k)
    ensures var e := ActBatch(c, sh, k); OnTrack(c, t, e.sh, e.k) && e.k.batchSize == k.batchSize
  {
    hide OnTrack, Assumptions, FetchRecordBatch, SerializeChunk, Chunk, Commit;
    match k.pc
    case LoopHead => LoopHeadStays(c, t, sh, k);
    case Fetching => FetchStays(c, t, sh, k);
    case Putting(rows) => PutStays(c, t, sh, k);
    case Confirming(rows) => ConfirmStays(c, t, sh, k);
    case Committing(rows) => CommitStays(c, t, sh, k);
  }

  lemma CrossCheckStays(c: Config, t: Table, sh: Shared, k: Worker)
    requires k.pc.CrossChecking? && OnTrack(c, t, sh, k)
    ensures ActAssemble(c, sh, k) == Effect(sh, k.At(Promoting(|Log(sh)|)))
    ensures OnTrack(c, t, sh, k.At(Promoting(|Log(sh)|)))
  {
    hide ClaimTrack, ResumeTrack, BatchTrack, VerifyTrack, CloseTrack, IsPublished;
    hide DataSafety.LogFits, ChunksInPlace, LoadResume, Ordered, Total, LastId, Chunk, CsvHeader, FinalKey;
    LogOkIsValid(c, Log(sh));
    LoadResumeIff(Log(sh));
  }

  lemma PromoteStays(c: Config, t: Table, sh: Shared, k: Worker)
    requires k.pc.Promoting? && OnTrack(c, t, sh, k)
    ensures var e := ActAssemble(c, sh, k); OnTrack(c, t, e.sh, e.k)
  {
    hide ClaimTrack, ResumeTrack, BatchTrack, VerifyTrack, CloseTrack, IsPublished;
    hide InPlace, Ordered, Total, CsvHeader, DataSafety.AssemblyOk;
    DataSafety.AssemblyStarts(c, t, Log(sh), k.pc.batches);
    SameInPlace(c, t, sh, ActAssemble(c, sh, k).sh);
  }

  lemma ChunkGrowsFile(c: Config, t: Table, cps: seq<Checkpoint>, n: nat)
    requires 1 <= n <= |cps| && DataSafety.LogFits(c, t, cps)
    ensures CsvFile(DataSafety.Rows(c, t, Total(cps[..n - 1]))) + ChunkText(c, t, cps, n)
         == CsvFile(DataSafety.Rows(c, t, Total(cps[..n])))
  {
    hide FetchRecordBatch, DataSafety.Rows, DataSafety.LogFits, CsvFile, SerializeChunk, Total, LastId, Cursor;
    DataSafety.FitsBefore(c, t, cps, n - 1);
    TotalStep(cps, n);
    DataSafety.FileExtends(c, t, LastId(cps[..n - 1]), Total(cps[..n - 1]), cps[n - 1].rowsWritten);
  }

  lemma ReadChunkStays(c: Config, t: Table, sh: Shared, batches: nat, next: nat, written: string)
    requires InPlace(c, t, sh) && DataSafety.AssemblyOk(c, t, Log(sh), batches, next, written) && next <= batches
    ensures Chunk(c, sh, next).Some?
    ensures DataSafety.AssemblyOk(c, t, Log(sh), batches, next + 1, written + Chunk(c, sh, next).value)
  {
    hide DataSafety.Rows, CsvFile, ChunkText, Ordered, Chunk, Total, LogOk, DataSafety.LogFits;
    assert Chunk(c, sh, next) == Some(ChunkText(c, t, Log(sh), next));
    ChunkGrowsFile(c, t, Log(sh), next);
  }

  lemma AssemblyIsTarget(c: Config, t: Table, cps: seq<Checkpoint>, batches: nat, next: nat, written: string)
    requires DataSafety.AssemblyOk(c, t, cps, batches, next, written) && batches == |cps| && next > batches
    requires IsFull(c, cps)
    ensures written == Target(c, t)
  {
    hide DataSafety.Rows, CsvFile, Total;
    assert cps[..next - 1] == cps;
  }

  lemma PublishedIsThere(c: Config, sh: Shared, file: string)
    ensures Final(c, sh.(objects := sh.objects[FinalKey(c.jobId) := file])) == Some(file)
  {
  }

  lemma PublishStays(c: Config, t: Table, sh: Shared, k: Worker)
    requires k.pc.Assembling? && k.pc.next > k.pc.batches && OnTrack(c, t, sh, k)
    ensures var e := ActAssemble(c, sh, k); OnTrack(c, t, e.sh, e.k)
  {
    hide ClaimTrack, ResumeTrack, BatchTrack, CloseTrack, InPlace, Ordered, Total, DataSafety.AssemblyOk, Target;
    hide IsFull;
    hide Final, FinalKey, Chunk, LoadResume, CsvHeader;
    AssemblyIsTarget(c, t, Log(sh), k.pc.batches, k.pc.next, k.pc.written);
    PublishedIsThere(c, sh, k.pc.written);
  }

  lemma NextChunkActs(c: Config, sh: Shared, k: Worker)
    requires k.pc.Assembling? && k.pc.next <= k.pc.batches && Chunk(c, sh, k.pc.next).Some?
    ensures ActAssemble(c, sh, k)
      == Effect(sh, k.At(Assembling(k.pc.batches, k.pc.next + 1, k.pc.written + Chunk(c, sh, k.pc.next).value)))
  {
    hide Chunk, LoadResume, Ordered, CsvHeader, FinalKey;
  }

  lemma NextChunkStays(c: Config, t: Table, sh: Shared, k: Worker)
    requires k.pc.Assembling? && k.pc.next <= k.pc.batches && OnTrack(c, t, sh, k)
    ensures var e := ActAssemble(c, sh, k); OnTrack(c, t, e.sh, e.k)
  {
    hide ClaimTrack, ResumeTrack, BatchTrack, VerifyTrack, CloseTrack, IsPublished;
    hide InPlace, Ordered, DataSafety.AssemblyOk, ActAssemble, Chunk, IsFull;
    ReadChunkStays(c, t, sh, k.pc.batches, k.pc.next, k.pc.written);
    NextChunkActs(c, sh, k);
  }

  lemma AssembleStays(c: Config, t: Table, sh: Shared, k: Worker)
    requires IsAssembling(k.pc) && OnTrack(c, t, sh, k)
    ensures var e := ActAssemble(c, sh, k); OnTrack(c, t, e.sh, e.k) && e.k.batchSize == k.batchSize
  {
    hide OnTrack, Ordered, LoadResume, Chunk, CsvHeader, FinalKey;
    if k.pc.CrossChecking? {
      CrossCheckStays(c, t, sh, k);
    } else if k.pc.Promoting? {
      PromoteStays(c, t, sh, k);
    } else if k.pc.next > k.pc.batches {
      PublishStays(c, t, sh, k);
    } else {
      NextChunkStays(c, t, sh, k);
    }
  }

  lemma VerifyStays(c: Config, t: Table, sh: Shared, k: Worker)
    requires Assumptions(c, t, k) && IsVerifying(k.pc) && OnTrack(c, t, sh, k)
    ensures var e := ActVerify(c, sh, k); OnTrack(c, t, e.sh, e.k) && e.k.batchSize == k.batchSize
  {
    hide Target, AuditBody, DataSafety.HasTarget, ReadsDecimals, Lookup, IsReadable;
    TargetPasses(c, t);
  }

  lemma CleanStays(c: Config, t: Table, sh: Shared, k: Worker)
    requires Assumptions(c, t, k) && k.pc.Cleaning? && OnTrack(c, t, sh, k)
    ensures IsDelivered(c, t, DropChunks(c, sh))
  {
    hide Target, TargetReport, DataSafety.HasTarget, ReadsDecimals, Final, FinalKey, Chunk, DropChunks;
    hide ClaimTrack, ResumeTrack, BatchTrack, AssembleTrack, VerifyTrack;
    TargetPasses(c, t);
    DropKeepsRow(c, sh);
    ChunkAfterDrop(c, sh, 0);
    forall n: nat
      ensures Chunk(c, DropChunks(c, sh), n) == None
    {
      ChunkAfterDrop(c, sh, n);
    }
  }

  lemma CompleteStays(c: Config, t: Table, sh: Shared, k: Worker)
    requires k.pc.Completing? && OnTrack(c, t, sh, k)
    ensures var sh' := WriteJob(sh, Complete(sh.job, FinalKey(c.jobId), sh.now));
      IsPublished(c, t, sh') && CloseTrack(c, t, sh', k.At(Cleaning))
  {
    hide Target, TargetReport, FinalKey, IsDelivered;
    hide ClaimTrack, ResumeTrack, BatchTrack, AssembleTrack, VerifyTrack, InPlace, IsCalm;
  }

  lemma CloseStays(c: Config, t: Table, sh: Shared, k: Worker)
    requires Assumptions(c, t, k) && (k.pc.Completing? || k.pc.Cleaning?) && OnTrack(c, t, sh, k)
    ensures var e := ActClose(c, sh, k); OnTrack(c, t, e.sh, e.k) && e.k.batchSize == k.batchSize
  {
    hide Target, TargetReport, Assumptions, DropChunks, FinalKey, Final, IsFiled;
    hide ClaimTrack, ResumeTrack, BatchTrack, AssembleTrack, VerifyTrack, InPlace, IsCalm;
    if k.pc.Completing? {
      CompleteStays(c, t, sh, k);
    } else {
      CleanStays(c, t, sh, k);
    }
  }

  lemma ActStays(c: Config, t: Table, sh: Shared, k: Worker)
    requires Assumptions(c, t, k) && OnTrack(c, t, sh, k) && !k.pc.Ended?
    ensures var e := Act(c, sh, k); OnTrack(c, t, e.sh, e.k) && e.k.batchSize == k.batchSize
  {
    hide OnTrack, Assumptions, ActClaim, ActResume, ActBatch, ActAssemble, ActVerify, ActClose;
    if IsClaiming(k.pc) {
      ClaimStays(c, t, sh, k);
    } else if IsResuming(k.pc) {
      ResumeStays(c, t, sh, k);
    } else if IsBatching(k.pc) {
      BatchStays(c, t, sh, k);
    } else if IsAssembling(k.pc) {
      AssembleStays(c, t, sh, k);
    } else if IsVerifying(k.pc) {
      VerifyStays(c, t, sh, k);
    } else {
      ClosingOnTrack(c, t, sh, k);
      CloseStays(c, t, sh, k);
    }
  }

  lemma ClosingOnTrack(c: Config, t: Table, sh: Shared, k: Worker)
    requires OnTrack(c, t, sh, k) && !k.pc.Ended? && !IsClaiming(k.pc) && !IsResuming(k.pc) && !IsBatching(k.pc)
    requires !IsAssembling(k.pc) && !IsVerifying(k.pc)
    ensures k.pc.Completing? || k.pc.Cleaning?
  {
    hide IsPublished, IsFiled, IsDelivered;
  }

  lemma {:induction false} RunStays(c: Config, t: Table, sh: Shared, k: Worker)
    requires Assumptions(c, t, k) && OnTrack(c, t, sh, k)
    ensures
      var e := RunAlone(c, sh, k);
      e.k.pc == Ended(RanToCompletion) && IsDelivered(c, t, e.sh)
    decreases Phase(k.pc), Remaining(c, k), Turn(c, k)
  {
    hide Phase, Remaining, Turn, Act, IsDelivered, IsCalm, InPlace, ClaimTrack, ResumeTrack, BatchTrack;
    hide AssembleTrack, VerifyTrack, IsPublished, IsFiled, DataSafety.HasTarget, ReadsDecimals;
    if !k.pc.Ended? {
      ActDescends(c, sh, k);
      ActStays(c, t, sh, k);
      RunStays(c, t, Act(c, sh, k).sh, Act(c, sh, k).k);
    }
  }

  // ---- From any reachable state ---------------------------------------------------------------

  /** Nobody cancelled, a worker may claim the job, and every checkpointed chunk is in the store. */
  ghost predicate CanBeResumed(c: Config, sh: Shared) {
    && IsClaimable(sh.job, sh.now - c.stallTimeout) && !sh.job.cancelRequested
    && forall n: nat :: 1 <= n <= |Log(sh)| ==> Chunk(c, sh, n).Some?
  }

  /** Worker `w` picks the job up and is left alone for `n` requests. */
  function LeftAlone(w: nat, size: nat, n: nat): seq<Event> {
    [Start(w, size)] + Repeat(Work(w, Proceeds), n)
  }

  lemma OverlapInPlace(c: Config, t: Table, size: nat, sh: Shared)
    requires LogOk(c, Log(sh)) && DataSafety.DataOk(c, t, size, sh) && CanBeResumed(c, sh)
    ensures InPlace(c, t, sh)
  {
    hide LogOk, DataSafety.LogFits, DataSafety.IsStable, DataSafety.ChunksOk, DataSafety.CutBy, DataSafety.FinalOk;
    hide Chunk, SerializeChunk, Ordered, FetchRecordBatch, DataSafety.EndsRight;
    forall n: nat | 1 <= n <= |Log(sh)|
      ensures Chunk(c, sh, n) == Some(ChunkText(c, t, Log(sh), n))
    {
      DataSafety.ChunkIsBatch(c, t, size, sh, n);
    }
  }

  lemma CommittedChunk(c: Config, t: Table, sh: Shared, n: nat)
    requires SoloSafety.CommittedOk(c, Some(t), sh) && 1 <= n <= |Log(sh)| && Chunk(c, sh, n).Some?
    ensures Chunk(c, sh, n) == Some(ChunkText(c, t, Log(sh), n))
    ensures
      var cp, from := Log(sh)[n - 1], LastId(Log(sh)[..n - 1]);
      var rows := FetchRecordBatch(t, from, c.snapshotMaxId, cp.rowsWritten);
      |rows| == cp.rowsWritten && Cursor(from, rows) == cp.lastRecordId
  {
    hide Chunk, SerializeChunk, Ordered, FetchRecordBatch, IdsWithin, Cursor;
    var cp, from := Log(sh)[n - 1], LastId(Log(sh)[..n - 1]);
    assert SoloSafety.IsChunkFrom(c, Some(t), Chunk(c, sh, n).value, from, cp.lastRecordId, cp.rowsWritten);
  }

  lemma EndsRightStep(c: Config, t: Table, cps: seq<Checkpoint>, n: nat)
    requires 1 <= n <= |cps| && cps[n - 1].rowsWritten >= 1 && DataSafety.EndsRight(c, t, cps[..n - 1])
    requires
      var rows := FetchRecordBatch(t, LastId(cps[..n - 1]), c.snapshotMaxId, cps[n - 1].rowsWritten);
      |rows| == cps[n - 1].rowsWritten && Cursor(LastId(cps[..n - 1]), rows) == cps[n - 1].lastRecordId
    ensures DataSafety.EndsRight(c, t, cps[..n])
  {
    hide FetchRecordBatch, DataSafety.Rows, Total, LastId;
    var before := cps[..n - 1];
    DataSafety.RowsExtend(c, t, LastId(before), Total(before), cps[n - 1].rowsWritten);
    TotalStep(cps, n);
  }

  lemma {:induction false} AttemptsEndRight(c: Config, t: Table, sh: Shared, n: nat)
    requires LogOk(c, Log(sh)) && SoloSafety.CommittedOk(c, Some(t), sh) && CanBeResumed(c, sh) && n <= |Log(sh)|
    ensures DataSafety.EndsRight(c, t, Log(sh)[..n])
  {
    hide Ordered, FetchRecordBatch, SoloSafety.CommittedOk, Chunk, ValidLog;
    if n == 0 {
      DataSafety.NoRows(c, t);
      assert Log(sh)[..0] == [];
    } else {
      AttemptsEndRight(c, t, sh, n - 1);
      CommittedChunk(c, t, sh, n);
      hide DataSafety.EndsRight;
      EndsRightStep(c, t, Log(sh), n);
    }
  }

  lemma AttemptsInPlace(c: Config, t: Table, sh: Shared)
    requires LogOk(c, Log(sh)) && SoloSafety.CommittedOk(c, Some(t), sh) && CanBeResumed(c, sh)
    ensures InPlace(c, t, sh)
  {
    hide LogOk, Ordered, FetchRecordBatch, SoloSafety.CommittedOk, Chunk, DataSafety.EndsRight, ChunkText;
    forall n: nat | 1 <= n <= |Log(sh)|
      ensures Chunk(c, sh, n) == Some(ChunkText(c, t, Log(sh), n))
    {
      CommittedChunk(c, t, sh, n);
    }
    forall n: nat | n <= |Log(sh)|
      ensures DataSafety.EndsRight(c, t, Log(sh)[..n])
    {
      AttemptsEndRight(c, t, sh, n);
    }
  }

  /** The machine with worker `w` delivered. */
  ghost predicate Delivers(c: Config, t: Table, s: State, w: nat) {
    w in s.workers && s.workers[w].pc == Ended(RanToCompletion) && IsDelivered(c, t, s.sh)
  }

  lemma FreshIsOnTrack(c: Config, t: Table, sh: Shared, size: nat)
    requires InPlace(c, t, sh) && DataSafety.IsStable(c, t, sh.table) && CanBeResumed(c, sh)
    ensures OnTrack(c, t, sh, NewWorker(size))
  {
    hide InPlace, DataSafety.IsStable, Chunk, Ordered;
  }

  lemma NextWorkerDelivers(c: Config, t: Table, s: State, w: nat, size: nat) returns (n: nat)
    requires Assumptions(c, t, NewWorker(size)) && InPlace(c, t, s.sh) && DataSafety.IsStable(c, t, s.sh.table)
    requires CanBeResumed(c, s.sh) && w !in s.workers
    ensures Delivers(c, t, Run(c, s, LeftAlone(w, size, n)), w)
  {
    hide Run, Assumptions, InPlace, DataSafety.IsStable, IsDelivered, RunAlone, Repeat, CanBeResumed, StepShared;
    hide ActWithLuck;
    FreshIsOnTrack(c, t, s.sh, size);
    hide OnTrack;
    var s' := Step(c, s, Start(w, size));
    RunStays(c, t, s.sh, NewWorker(size));
    n := AloneIsRun(c, s', w);
    RunFromFirst(c, s, Start(w, size), Repeat(Work(w, Proceeds), n));
  }

  /** After any overlapping workers, faults and interleavings over a stable table with one batch size: once the job
      can be claimed again, the next worker left alone delivers exactly the target. */
  lemma DeliversAfterOverlap(c: Config, t: Table, size: nat, s: State, events: seq<Event>, w: nat) returns (n: nat)
    requires Assumptions(c, t, NewWorker(size)) && Init(c, s) && DataSafety.IsStable(c, t, s.sh.table)
    requires DataSafety.IsStableRun(c, t, size, events)
    requires CanBeResumed(c, Run(c, s, events).sh) && w !in Run(c, s, events).workers
    ensures Delivers(c, t, Run(c, s, events + LeftAlone(w, size, n)), w)
  {
    hide Run, Init, DataSafety.HasTarget, ReadsDecimals, DataSafety.IsStable, DataSafety.IsStableRun, InPlace;
    hide LogOk, WorkerOk, LeftAlone, Delivers;
    DataSafety.DataInvAlways(c, t, size, s, events);
    OverlapInPlace(c, t, size, Run(c, s, events).sh);
    n := NextWorkerDelivers(c, t, Run(c, s, events), w, size);
    RunInTwo(c, s, events, LeftAlone(w, size, n));
  }

  /** The same after any number of attempts that crashed anywhere but did not overlap, each with a batch size of
      its own: what is delivered is what a run without interruption delivers. */
  lemma DeliversAfterAttempts(c: Config, t: Table, s: State, events: seq<Event>, w: nat, size: nat) returns (n: nat)
    requires Assumptions(c, t, NewWorker(size)) && Init(c, s) && DataSafety.IsStable(c, t, s.sh.table)
    requires SoloSafety.IsSoloRun(c, Some(t), s, events)
    requires CanBeResumed(c, Run(c, s, events).sh) && w !in Run(c, s, events).workers
    ensures Delivers(c, t, Run(c, s, events + LeftAlone(w, size, n)), w)
  {
    hide Run, Init, DataSafety.HasTarget, ReadsDecimals, SoloSafety.IsSoloRun, InPlace, LogOk, WorkerOk, LeftAlone;
    hide Delivers, SoloSafety.SoloWorker, SoloSafety.CommittedOk, AgreeUpTo, SoloSafety.PublishedOk;
    SoloSafety.SoloInvAlways(c, Some(t), s, events);
    AttemptsInPlace(c, t, Run(c, s, events).sh);
    n := NextWorkerDelivers(c, t, Run(c, s, events), w, size);
    RunInTwo(c, s, events, LeftAlone(w, size, n));
  }
}
