/** What the object store holds when the rows within the snapshot do not change: any number of overlapping
    workers, any faults, any interleaving with the API, the sweeper and foreign writers. `t` is the table at
    the start; `size` is the job's batch size. */
module DataSafety {
  import opened Common
  import opened Csv
  import opened RecordSource
  import opened Storage
  import opened Resume
  import opened Jobs
  import opened Protocol
  import opened LogSafety

  /** The first `n` rows of the export. */
  function Rows(c: Config, t: Table, n: nat): seq<Row> {
    FirstRows(t, c.snapshotMaxId, n)
  }

  /** The rows within the snapshot are those of `t`, and there are enough of them. */
  predicate IsStable(c: Config, t: Table, now: Table) {
    AgreeUpTo(c.snapshotMaxId, now, t)
  }

  predicate HasTarget(c: Config, t: Table) {
    |Rows(c, t, c.limit)| == c.limit
  }

  /** The rows of batch `n`, given the log before it. */
  function BatchRows(c: Config, t: Table, size: nat, cps: seq<Checkpoint>, n: nat): seq<Row>
    requires 1 <= n <= |cps| + 1
  {
    FetchRecordBatch(t, LastId(cps[..n - 1]), c.snapshotMaxId, Room(c, size, Total(cps[..n - 1])))
  }

  /** The log ends where the rows it accounts for end. */
  predicate EndsRight(c: Config, t: Table, cps: seq<Checkpoint>) {
    LastId(cps) == Cursor(0, Rows(c, t, Total(cps)))
  }

  predicate LogFits(c: Config, t: Table, cps: seq<Checkpoint>) {
    forall i :: 0 <= i <= |cps| ==> EndsRight(c, t, cps[..i])
  }

  predicate CutBy(c: Config, size: nat, cps: seq<Checkpoint>) {
    forall i :: 0 <= i < |cps| ==> cps[i].rowsWritten == Room(c, size, Total(cps[..i]))
  }

  ghost predicate ChunksOk(c: Config, t: Table, size: nat, sh: Shared) {
    forall n: nat :: Chunk(c, sh, n).Some? ==>
      1 <= n <= |Log(sh)| + 1 && Chunk(c, sh, n).value == SerializeChunk(BatchRows(c, t, size, Log(sh), n))
  }

  predicate FinalOk(c: Config, t: Table, sh: Shared) {
    Final(c, sh).Some? ==> Final(c, sh).value == CsvFile(Rows(c, t, c.limit))
  }

  ghost predicate DataOk(c: Config, t: Table, size: nat, sh: Shared) {
    && IsStable(c, t, sh.table)
    && LogFits(c, t, Log(sh))
    && CutBy(c, size, Log(sh))
    && ChunksOk(c, t, size, sh)
    && FinalOk(c, t, sh)
  }

  predicate AssemblyOk(c: Config, t: Table, cps: seq<Checkpoint>, batches: nat, next: nat, written: string) {
    1 <= next <= batches + 1 <= |cps| + 1 && written == CsvFile(Rows(c, t, Total(cps[..next - 1])))
  }

  predicate WorkerData(c: Config, t: Table, size: nat, cps: seq<Checkpoint>, k: Worker) {
    && k.batchSize == size
    && (HoldsBatch(k.pc) ==> k.pc.rows == FetchRecordBatch(t, k.cursor, c.snapshotMaxId, Room(c, size, k.count)))
    && (k.pc.Assembling? ==> AssemblyOk(c, t, cps, k.pc.batches, k.pc.next, k.pc.written))
  }

  ghost predicate DataInv(c: Config, t: Table, size: nat, s: State) {
    && LogInv(c, s)
    && DataOk(c, t, size, s.sh)
    && forall w :: w in s.workers ==> WorkerData(c, t, size, Log(s.sh), s.workers[w])
  }

  /** The events of a run with a stable snapshot and a fixed batch size. */
  predicate IsStableEvent(c: Config, t: Table, size: nat, e: Event) {
    (e.WriteTable? ==> IsStable(c, t, e.table)) && (e.Start? ==> e.batchSize == size)
  }

  // ---- Rows ---------------------------------------------------------------------

  lemma RowsCount(c: Config, t: Table, n: nat)
    requires HasTarget(c, t) && n <= c.limit
    ensures |Rows(c, t, n)| == n
  {
    hide FetchRecordBatch;
    PagesCompose(t, 0, c.snapshotMaxId, n, c.limit - n);
    PageIsOrdered(t, 0, c.snapshotMaxId, n);
    PageIsOrdered(t, Cursor(0, Rows(c, t, n)), c.snapshotMaxId, c.limit - n);
  }

  lemma NoRows(c: Config, t: Table)
    ensures Rows(c, t, 0) == []
  {
    hide FetchRecordBatch;
    PageIsOrdered(t, 0, c.snapshotMaxId, 0);
  }

  /** The rows up to `n` and the page after them are the rows up to `n + m`. */
  lemma RowsExtend(c: Config, t: Table, cursor: nat, n: nat, m: nat)
    requires cursor == Cursor(0, Rows(c, t, n))
    ensures Rows(c, t, n + m) == Rows(c, t, n) + FetchRecordBatch(t, cursor, c.snapshotMaxId, m)
  {
    hide FetchRecordBatch;
    PagesCompose(t, 0, c.snapshotMaxId, n, m);
  }

  lemma PageCount(c: Config, t: Table, cursor: nat, n: nat, m: nat)
    requires HasTarget(c, t) && n + m <= c.limit && cursor == Cursor(0, Rows(c, t, n))
    ensures |FetchRecordBatch(t, cursor, c.snapshotMaxId, m)| == m
  {
    hide FetchRecordBatch, Rows, HasTarget;
    RowsCount(c, t, n);
    RowsCount(c, t, n + m);
    RowsExtend(c, t, cursor, n, m);
  }

  lemma FileExtends(c: Config, t: Table, cursor: nat, n: nat, m: nat)
    requires cursor == Cursor(0, Rows(c, t, n))
    ensures CsvFile(Rows(c, t, n)) + SerializeChunk(FetchRecordBatch(t, cursor, c.snapshotMaxId, m))
         == CsvFile(Rows(c, t, n + m))
  {
    hide FetchRecordBatch, Rows, CsvFile, CsvHeader, SerializeChunk;
    var page := FetchRecordBatch(t, cursor, c.snapshotMaxId, m);
    RowsExtend(c, t, cursor, n, m);
    ChunksConcatenate(Rows(c, t, n), page);
    FileParts(Rows(c, t, n));
    FileParts(Rows(c, t, n + m));
    Associative(CsvHeader(), SerializeChunk(Rows(c, t, n)), SerializeChunk(page));
  }

  // ---- The log --------------------------------------------------------------------

  lemma CursorOfExtended(a: seq<Row>, b: seq<Row>)
    requires b != []
    ensures Cursor(0, a + b) == Cursor(0, b)
  {
  }

  lemma FitsAppend(c: Config, t: Table, cps: seq<Checkpoint>, cp: Checkpoint)
    requires LogFits(c, t, cps) && EndsRight(c, t, cps + [cp])
    ensures LogFits(c, t, cps + [cp])
  {
    hide EndsRight;
    var more, n := cps + [cp], |cps|;
    forall i | 0 <= i <= |more|
      ensures EndsRight(c, t, more[..i])
    {
      if i <= n {
        assert more[..i] == cps[..i];
      } else {
        assert more[..i] == more;
      }
    }
  }

  lemma CutAppend(c: Config, size: nat, cps: seq<Checkpoint>, cp: Checkpoint)
    requires CutBy(c, size, cps) && cp.rowsWritten == Room(c, size, Total(cps))
    ensures CutBy(c, size, cps + [cp])
  {
    hide Room;
    var more := cps + [cp];
    forall i | 0 <= i < |more|
      ensures more[i].rowsWritten == Room(c, size, Total(more[..i]))
    {
      assert more[..i] == cps[..i];
      if i == |cps| {
        assert cps[..i] == cps;
      }
    }
  }

  lemma LogFitsWhole(c: Config, t: Table, cps: seq<Checkpoint>)
    requires LogFits(c, t, cps)
    ensures LastId(cps) == Cursor(0, Rows(c, t, Total(cps)))
  {
    hide Rows;
    assert cps[..|cps|] == cps;
  }

  lemma LogFitsAppend(c: Config, t: Table, size: nat, cps: seq<Checkpoint>, cp: Checkpoint, rows: seq<Row>)
    requires LogFits(c, t, cps) && CutBy(c, size, cps) && HasTarget(c, t) && Total(cps) <= c.limit
    requires rows == FetchRecordBatch(t, LastId(cps), c.snapshotMaxId, Room(c, size, Total(cps))) && rows != []
    requires cp.lastRecordId == Cursor(0, rows) && cp.rowsWritten == |rows|
    ensures LogFits(c, t, cps + [cp]) && CutBy(c, size, cps + [cp])
  {
    hide Rows, FetchRecordBatch, HasTarget, LogFits, CutBy, LastId, Total;
    LogFitsWhole(c, t, cps);
    PageCount(c, t, LastId(cps), Total(cps), Room(c, size, Total(cps)));
    RowsExtend(c, t, LastId(cps), Total(cps), |rows|);
    CursorOfExtended(Rows(c, t, Total(cps)), rows);
    TotalAppend(cps, cp);
    FitsAppend(c, t, cps, cp);
    CutAppend(c, size, cps, cp);
  }

  lemma BatchRowsOfPrefix(c: Config, t: Table, size: nat, cps: seq<Checkpoint>, more: seq<Checkpoint>, n: nat)
    requires cps <= more && 1 <= n <= |cps| + 1
    ensures BatchRows(c, t, size, more, n) == BatchRows(c, t, size, cps, n)
  {
    hide FetchRecordBatch;
    assert more[..n - 1] == cps[..n - 1];
  }

  lemma WorkerDataAfterGrowth(c: Config, t: Table, size: nat, cps: seq<Checkpoint>, more: seq<Checkpoint>, k: Worker)
    requires WorkerData(c, t, size, cps, k) && cps <= more
    ensures WorkerData(c, t, size, more, k)
  {
    hide FetchRecordBatch, Rows, CsvFile;
    if k.pc.Assembling? {
      assert more[..k.pc.next - 1] == cps[..k.pc.next - 1];
    }
  }

  lemma ChunksAfterGrowth(c: Config, t: Table, size: nat, sh: Shared, sh': Shared)
    requires ChunksOk(c, t, size, sh) && Log(sh) <= Log(sh') && sh'.objects == sh.objects
    ensures ChunksOk(c, t, size, sh')
  {
    hide BatchRows, SerializeChunk, Ordered;
    forall n: nat | Chunk(c, sh', n).Some?
      ensures 1 <= n <= |Log(sh')| + 1 && Chunk(c, sh', n).value == SerializeChunk(BatchRows(c, t, size, Log(sh'), n))
    {
      assert Chunk(c, sh', n) == Chunk(c, sh, n);
      BatchRowsOfPrefix(c, t, size, Log(sh), Log(sh'), n);
    }
  }

  // ---- Requests that change the data --------------------------------------------------

  lemma FetchReadsBatch(c: Config, t: Table, size: nat, sh: Shared, k: Worker)
    requires IsStable(c, t, sh.table) && k.batchSize == size
    ensures FetchRecordBatch(sh.table, k.cursor, c.snapshotMaxId, BatchLimit(c, k))
         == FetchRecordBatch(t, k.cursor, c.snapshotMaxId, Room(c, size, k.count))
  {
    hide FetchRecordBatch, AgreeUpTo;
    PagesOfAgreeingTables(sh.table, t, k.cursor, c.snapshotMaxId, BatchLimit(c, k));
  }

  lemma PutKeepsChunks(c: Config, t: Table, size: nat, sh: Shared, k: Worker)
    requires c.Valid() && ChunksOk(c, t, size, sh) && FinalOk(c, t, sh) && k.pc.Putting?
    requires OnLog(Log(sh), k.batch, k.cursor, k.count) && WorkerData(c, t, size, Log(sh), k)
    ensures
      var sh' := PutChunk(c, sh, k.batch, SerializeChunk(k.pc.rows));
      ChunksOk(c, t, size, sh') && FinalOk(c, t, sh')
  {
    hide FetchRecordBatch, SerializeChunk, Ordered, PutChunk, CsvFile;
    var body := SerializeChunk(k.pc.rows);
    var sh' := PutChunk(c, sh, k.batch, body);
    PutKeepsLog(c, sh, k.batch, body);
    ChunkAfterPut(c, sh, k.batch, body, 0);
    assert body == SerializeChunk(BatchRows(c, t, size, Log(sh), k.batch));
    forall n: nat | Chunk(c, sh', n).Some?
      ensures 1 <= n <= |Log(sh')| + 1 && Chunk(c, sh', n).value == SerializeChunk(BatchRows(c, t, size, Log(sh'), n))
    {
      ChunkAfterPut(c, sh, k.batch, body, n);
    }
  }

  lemma PutKeepsLog(c: Config, sh: Shared, n: nat, body: string)
    ensures PutChunk(c, sh, n, body).log == sh.log && PutChunk(c, sh, n, body).table == sh.table
  {
  }

  lemma DropKeepsData(c: Config, t: Table, size: nat, sh: Shared)
    requires c.Valid() && DataOk(c, t, size, sh)
    ensures DataOk(c, t, size, DropChunks(c, sh))
  {
    hide Ordered, CsvFile, LogFits, CutBy, IsStable, FinalOk, ChunksOk;
    ChunkAfterDrop(c, sh, 0);
    FinalUnchanged(c, t, sh, DropChunks(c, sh));
    NoChunksOk(c, t, size, DropChunks(c, sh)) by {
      forall n: nat
        ensures Chunk(c, DropChunks(c, sh), n) == None
      {
        ChunkAfterDrop(c, sh, n);
      }
    }
  }

  lemma NoChunksOk(c: Config, t: Table, size: nat, sh: Shared)
    requires forall n: nat :: Chunk(c, sh, n) == None
    ensures ChunksOk(c, t, size, sh)
  {
  }

  lemma CommitKeepsData(c: Config, t: Table, size: nat, sh: Shared, k: Worker, rows: seq<Row>)
    requires HasTarget(c, t) && DataOk(c, t, size, sh)
    requires LogOk(c, Log(sh)) && OnLog(Log(sh), k.batch, k.cursor, k.count) && k.batch !in sh.log
    requires IsBatch(c, k.cursor, BatchLimit(c, k), rows)
    requires rows == FetchRecordBatch(t, k.cursor, c.snapshotMaxId, Room(c, size, k.count))
    ensures DataOk(c, t, size, Commit(sh, k, rows))
  {
    hide Ordered, FetchRecordBatch, HasTarget, LogFits, CutBy, ChunksOk, LogOk, OnLog, IsStable, FinalOk, IsBatch;
    CommitKeepsLog(c, sh, k, rows);
    FreeBatchIsNext(c, sh, k);
    LogOkWithin(c, Log(sh));
    BatchNotEmpty(c, k.cursor, BatchLimit(c, k), rows);
    LogFitsAppend(c, t, size, Log(sh), Checkpoint(k.batch, Cursor(0, rows), |rows|), rows);
    ChunksAfterGrowth(c, t, size, sh, Commit(sh, k, rows));
    FinalUnchanged(c, t, sh, Commit(sh, k, rows));
  }

  lemma LogOkWithin(c: Config, cps: seq<Checkpoint>)
    requires LogOk(c, cps)
    ensures Total(cps) <= c.limit
  {
  }

  lemma FinalUnchanged(c: Config, t: Table, sh: Shared, sh': Shared)
    requires FinalOk(c, t, sh) && Final(c, sh') == Final(c, sh)
    ensures FinalOk(c, t, sh')
  {
  }

  // ---- One worker's request --------------------------------------------------------------

  lemma SameDataOk(c: Config, t: Table, size: nat, sh: Shared, sh': Shared)
    requires DataOk(c, t, size, sh) && SameData(sh, sh')
    ensures DataOk(c, t, size, sh')
  {
    hide Ordered, Rows, CsvFile, LogFits, CutBy, IsStable, ChunksOk;
    ChunksAfterGrowth(c, t, size, sh, sh');
  }

  lemma LightData(c: Config, t: Table, size: nat, cps: seq<Checkpoint>, k: Worker)
    requires IsLight(k.pc) && k.batchSize == size
    ensures WorkerData(c, t, size, cps, k)
  {
    hide FetchRecordBatch;
  }

  lemma OthersKeepData(c: Config, t: Table, size: nat, sh: Shared, k: Worker)
    requires c.Valid() && DataOk(c, t, size, sh) && k.batchSize == size && !IsBatching(k.pc) && !IsAssembling(k.pc)
    ensures var e := Act(c, sh, k); DataOk(c, t, size, e.sh) && WorkerData(c, t, size, Log(e.sh), e.k)
  {
    hide Act, DataOk, WorkerData, DropChunks;
    OtherActsAreLight(c, sh, k);
    var e := Act(c, sh, k);
    if SameData(sh, e.sh) {
      SameDataOk(c, t, size, sh, e.sh);
    } else {
      DropKeepsData(c, t, size, sh);
    }
    LightData(c, t, size, Log(e.sh), e.k);
  }

  lemma FetchKeepsData(c: Config, t: Table, size: nat, sh: Shared, k: Worker)
    requires IsStable(c, t, sh.table) && k.batchSize == size && k.pc.Fetching?
    ensures ActBatch(c, sh, k).sh == sh && WorkerData(c, t, size, Log(sh), ActBatch(c, sh, k).k)
  {
    hide FetchRecordBatch, IsStable, Ordered;
    FetchReadsBatch(c, t, size, sh, k);
  }

  lemma PutKeepsData(c: Config, t: Table, size: nat, sh: Shared, k: Worker)
    requires c.Valid() && DataOk(c, t, size, sh) && k.pc.Putting?
    requires OnLog(Log(sh), k.batch, k.cursor, k.count) && WorkerData(c, t, size, Log(sh), k)
    ensures var e := ActBatch(c, sh, k); DataOk(c, t, size, e.sh) && WorkerData(c, t, size, Log(e.sh), e.k)
  {
    hide FetchRecordBatch, IsStable, Ordered, OnLog, LogFits, CutBy, ChunksOk, FinalOk, SerializeChunk, PutChunk;
    PutKeepsLog(c, sh, k.batch, SerializeChunk(k.pc.rows));
    PutKeepsChunks(c, t, size, sh, k);
  }

  lemma CommitStepKeepsData(c: Config, t: Table, size: nat, sh: Shared, k: Worker)
    requires HasTarget(c, t) && DataOk(c, t, size, sh) && k.pc.Committing?
    requires LogOk(c, Log(sh)) && WorkerOk(c, Log(sh), k) && WorkerData(c, t, size, Log(sh), k)
    ensures var e := ActBatch(c, sh, k); DataOk(c, t, size, e.sh) && WorkerData(c, t, size, Log(e.sh), e.k)
  {
    hide FetchRecordBatch, HasTarget, DataOk, Ordered, OnLog, LogOk, IsBatch, Commit;
    BatchNotEmpty(c, k.cursor, BatchLimit(c, k), k.pc.rows);
    if k.batch !in sh.log {
      CommitKeepsData(c, t, size, sh, k, k.pc.rows);
    }
  }

  lemma OtherBatchStepsKeepData(c: Config, t: Table, size: nat, sh: Shared, k: Worker)
    requires WorkerData(c, t, size, Log(sh), k) && (k.pc.LoopHead? || k.pc.Confirming?)
    ensures ActBatch(c, sh, k).sh == sh && WorkerData(c, t, size, Log(sh), ActBatch(c, sh, k).k)
  {
    hide FetchRecordBatch, Ordered, SerializeChunk;
  }

  lemma BatchKeepsData(c: Config, t: Table, size: nat, sh: Shared, k: Worker)
    requires c.Valid() && HasTarget(c, t) && DataOk(c, t, size, sh) && IsBatching(k.pc)
    requires LogOk(c, Log(sh)) && WorkerOk(c, Log(sh), k) && WorkerData(c, t, size, Log(sh), k)
    ensures var e := ActBatch(c, sh, k); DataOk(c, t, size, e.sh) && WorkerData(c, t, size, Log(e.sh), e.k)
  {
    hide HasTarget, LogFits, CutBy, ChunksOk, FinalOk, IsStable, LogOk, OnLog, IsBatch, ActBatch, FetchRecordBatch;
    hide Ordered;
    match k.pc
    case Fetching => FetchKeepsData(c, t, size, sh, k);
    case Putting(rows) => PutKeepsData(c, t, size, sh, k);
    case Committing(rows) => CommitStepKeepsData(c, t, size, sh, k);
    case LoopHead => OtherBatchStepsKeepData(c, t, size, sh, k);
    case Confirming(rows) => OtherBatchStepsKeepData(c, t, size, sh, k);
  }

  lemma ChunkIsBatch(c: Config, t: Table, size: nat, sh: Shared, n: nat)
    requires DataOk(c, t, size, sh) && 1 <= n <= |Log(sh)| && Chunk(c, sh, n).Some?
    ensures EndsRight(c, t, Log(sh)[..n - 1])
    ensures Chunk(c, sh, n).value
         == SerializeChunk(FetchRecordBatch(t, LastId(Log(sh)[..n - 1]), c.snapshotMaxId, Log(sh)[n - 1].rowsWritten))
  {
    hide EndsRight, FetchRecordBatch, SerializeChunk, Ordered, FinalOk, IsStable, Room;
  }

  /** Reading the next chunk extends the file by exactly that batch's rows. */
  lemma ChunkExtendsFile(c: Config, t: Table, size: nat, sh: Shared, batches: nat, next: nat, written: string)
    requires DataOk(c, t, size, sh) && AssemblyOk(c, t, Log(sh), batches, next, written)
    requires next <= batches && Chunk(c, sh, next).Some?
    ensures AssemblyOk(c, t, Log(sh), batches, next + 1, written + Chunk(c, sh, next).value)
  {
    hide FetchRecordBatch, Rows, CsvFile, SerializeChunk, Log, DataOk, Chunk, Total, LastId, Cursor;
    var cps := Log(sh);
    var before := cps[..next - 1];
    ChunkIsBatch(c, t, size, sh, next);
    TotalStep(cps, next);
    FileExtends(c, t, LastId(before), Total(before), cps[next - 1].rowsWritten);
  }

  lemma AssemblyStarts(c: Config, t: Table, cps: seq<Checkpoint>, batches: nat)
    requires batches <= |cps|
    ensures AssemblyOk(c, t, cps, batches, 1, CsvHeader())
  {
    NoRows(c, t);
    assert CsvFile([]) == CsvHeader() + "";
    assert Total(cps[..0]) == 0;
  }

  lemma SameChunksOk(c: Config, t: Table, size: nat, sh: Shared, sh': Shared)
    requires ChunksOk(c, t, size, sh) && sh'.log == sh.log && forall n: nat :: Chunk(c, sh', n) == Chunk(c, sh, n)
    ensures ChunksOk(c, t, size, sh')
  {
    hide Chunk, BatchRows, SerializeChunk, Ordered;
  }

  lemma PublishKeepsData(c: Config, t: Table, size: nat, sh: Shared, k: Worker)
    requires c.Valid() && DataOk(c, t, size, sh) && WorkerOk(c, Log(sh), k)
    requires k.pc.Assembling? && k.pc.next > k.pc.batches
    requires AssemblyOk(c, t, Log(sh), k.pc.batches, k.pc.next, k.pc.written)
    ensures DataOk(c, t, size, ActAssemble(c, sh, k).sh)
  {
    hide Rows, CsvFile, Ordered, LogFits, CutBy, IsStable, ChunksOk, Final, Total, Chunk;
    ChunkAfterPublish(c, sh, k.pc.written, 0);
    forall n: nat
      ensures Chunk(c, ActAssemble(c, sh, k).sh, n) == Chunk(c, sh, n)
    {
      ChunkAfterPublish(c, sh, k.pc.written, n);
    }
    SameChunksOk(c, t, size, sh, ActAssemble(c, sh, k).sh);
  }

  lemma AssembleKeepsData(c: Config, t: Table, size: nat, sh: Shared, k: Worker)
    requires c.Valid() && DataOk(c, t, size, sh) && IsAssembling(k.pc)
    requires LogOk(c, Log(sh)) && WorkerOk(c, Log(sh), k) && WorkerData(c, t, size, Log(sh), k)
    ensures var e := ActAssemble(c, sh, k); DataOk(c, t, size, e.sh) && WorkerData(c, t, size, Log(e.sh), e.k)
  {
    hide DataOk, LogOk, OnLog, IsBatch, AssemblyOk, Ordered, LoadResume, FetchRecordBatch, Chunk, CsvHeader;
    match k.pc
    case CrossChecking =>
    case Promoting(batches) =>
      AssemblyStarts(c, t, Log(sh), batches);
      SameDataOk(c, t, size, sh, ActAssemble(c, sh, k).sh);
    case Assembling(batches, next, written) =>
      if next > batches {
        PublishKeepsData(c, t, size, sh, k);
      } else if Chunk(c, sh, next).Some? {
        ChunkExtendsFile(c, t, size, sh, batches, next, written);
      }
  }

  lemma ActKeepsData(c: Config, t: Table, size: nat, sh: Shared, k: Worker)
    requires c.Valid() && HasTarget(c, t) && DataOk(c, t, size, sh)
    requires LogOk(c, Log(sh)) && WorkerOk(c, Log(sh), k) && WorkerData(c, t, size, Log(sh), k)
    ensures var e := Act(c, sh, k); DataOk(c, t, size, e.sh) && WorkerData(c, t, size, Log(e.sh), e.k)
  {
    hide DataOk, HasTarget, LogOk, WorkerOk, AssemblyOk, FetchRecordBatch, Ordered, ActBatch, ActAssemble, ActClaim;
    hide ActResume, ActVerify, ActClose;
    if IsBatching(k.pc) {
      BatchKeepsData(c, t, size, sh, k);
    } else if IsAssembling(k.pc) {
      AssembleKeepsData(c, t, size, sh, k);
    } else {
      OthersKeepData(c, t, size, sh, k);
    }
  }

  lemma FewerChunksOk(c: Config, t: Table, size: nat, sh: Shared, sh': Shared)
    requires ChunksOk(c, t, size, sh) && sh'.log == sh.log
    requires forall n: nat :: Chunk(c, sh', n).Some? ==> Chunk(c, sh', n) == Chunk(c, sh, n)
    ensures ChunksOk(c, t, size, sh')
  {
    hide Chunk, BatchRows, SerializeChunk, Ordered;
  }

  /** Removing some of the chunks keeps what the others hold. */
  lemma PageKeepsData(c: Config, t: Table, size: nat, sh: Shared, keys: set<string>)
    requires c.Valid() && DataOk(c, t, size, sh)
    ensures DataOk(c, t, size, DropPage(c, sh, keys)) && Log(DropPage(c, sh, keys)) == Log(sh)
  {
    hide Ordered, CsvFile, LogFits, CutBy, IsStable, FinalOk, ChunksOk, Chunk, DropPage;
    PageKeepsRow(c, sh, keys);
    ChunkAfterPage(c, sh, keys, 0);
    FinalUnchanged(c, t, sh, DropPage(c, sh, keys));
    forall n: nat
      ensures Chunk(c, DropPage(c, sh, keys), n).Some? ==> Chunk(c, DropPage(c, sh, keys), n) == Chunk(c, sh, n)
    {
      ChunkAfterPage(c, sh, keys, n);
    }
    FewerChunksOk(c, t, size, sh, DropPage(c, sh, keys));
  }

  lemma LuckKeepsData(c: Config, t: Table, size: nat, sh: Shared, k: Worker, luck: Luck)
    requires c.Valid() && HasTarget(c, t) && DataOk(c, t, size, sh)
    requires LogOk(c, Log(sh)) && WorkerOk(c, Log(sh), k) && WorkerData(c, t, size, Log(sh), k)
    ensures var e := ActWithLuck(c, sh, k, luck); DataOk(c, t, size, e.sh) && WorkerData(c, t, size, Log(e.sh), e.k)
  {
    hide DataOk, HasTarget, LogOk, WorkerOk, WorkerData, Ordered, Act, Thrown, DropPage;
    if luck.DeletesPage? {
      PageKeepsData(c, t, size, sh, luck.keys);
    }
    ActKeepsData(c, t, size, sh, k);
    var e := Act(c, sh, k);
    SizeOf(c, t, size, Log(sh), k);
    SizeOf(c, t, size, Log(e.sh), e.k);
    ThrownIsLight(k.pc, k);
    ThrownIsLight(k.pc, e.k);
    LightData(c, t, size, Log(sh), Thrown(k.pc, k));
    LightData(c, t, size, Log(e.sh), Thrown(k.pc, e.k));
    LightData(c, t, size, Log(sh), k.At(Ended(Crashed)));
  }

  lemma SizeOf(c: Config, t: Table, size: nat, cps: seq<Checkpoint>, k: Worker)
    requires WorkerData(c, t, size, cps, k)
    ensures k.batchSize == size
  {
  }

  // ---- Every run -----------------------------------------------------------------------------

  lemma SharedStepKeepsData(c: Config, t: Table, size: nat, sh: Shared, e: Event)
    requires DataOk(c, t, size, sh) && IsStableEvent(c, t, size, e)
    ensures DataOk(c, t, size, StepShared(c, sh, e))
  {
    hide Ordered, BatchRows, Rows, CsvFile, LogFits, CutBy, SerializeChunk, StepShared, Chunk, Final, AgreeUpTo;
    SharedStepKeeps(c, sh, e);
    if e.WriteTable? {
      TableAfterWrite(c, sh, e);
    }
  }

  lemma TableAfterWrite(c: Config, sh: Shared, e: Event)
    requires e.WriteTable?
    ensures StepShared(c, sh, e).table == e.table
  {
  }

  lemma JobWriteKeepsData(c: Config, t: Table, size: nat, sh: Shared, row: JobRow)
    requires DataOk(c, t, size, sh)
    ensures DataOk(c, t, size, WriteJob(sh, row))
  {
    hide DataOk;
    SameDataOk(c, t, size, sh, WriteJob(sh, row));
  }

  lemma WorkKeepsData(c: Config, t: Table, size: nat, s: State, w: nat, luck: Luck)
    requires c.Valid() && HasTarget(c, t) && DataInv(c, t, size, s) && w in s.workers
    ensures DataInv(c, t, size, Step(c, s, Work(w, luck)))
  {
    hide DataOk, HasTarget, WorkerData, LogOk, WorkerOk, Ordered, ActWithLuck;
    var s' := Step(c, s, Work(w, luck));
    StepKeepsLog(c, s, Work(w, luck));
    LuckKeepsData(c, t, size, s.sh, s.workers[w], luck);
    forall v | v in s'.workers
      ensures WorkerData(c, t, size, Log(s'.sh), s'.workers[v])
    {
      if v != w {
        WorkerDataAfterGrowth(c, t, size, Log(s.sh), Log(s'.sh), s.workers[v]);
      }
    }
  }

  lemma StepKeepsData(c: Config, t: Table, size: nat, s: State, e: Event)
    requires c.Valid() && HasTarget(c, t) && DataInv(c, t, size, s) && IsStableEvent(c, t, size, e)
    ensures DataInv(c, t, size, Step(c, s, e))
  {
    hide DataOk, HasTarget, WorkerData, LogInv, Ordered, ActWithLuck, StepShared, AgreeUpTo;
    StepKeepsLog(c, s, e);
    match e
    case Work(w, luck) =>
      if w in s.workers {
        WorkKeepsData(c, t, size, s, w, luck);
      }
    case WriteQueued => JobWriteKeepsData(c, t, size, s.sh, SetStatus(s.sh.job, Queued, s.sh.now));
    case Answer(id) =>
      if id in s.requests {
        JobWriteKeepsData(c, t, size, s.sh, Answered(s.sh.job, s.requests[id], s.sh.now));
      }
    case Ask(id, kind) =>
    case Reverify(id, length) =>
    case Record(id) =>
      if id in s.audits {
        SameDataOk(c, t, size, s.sh, AddReport(s.sh, s.audits[id]));
      }
    case Start(w, batchSize) => LightData(c, t, size, Log(s.sh), NewWorker(batchSize));
    case _ =>
      SharedStepKeepsData(c, t, size, s.sh, e);
      SharedStepKeeps(c, s.sh, e);
  }

  lemma InitHasData(c: Config, t: Table, size: nat, s: State)
    requires Init(c, s) && IsStable(c, t, s.sh.table)
    ensures DataInv(c, t, size, s)
  {
    InitHasLog(c, s);
    InitData(c, t, size, s);
    hide DataOk, LogInv;
  }

  lemma InitStore(c: Config, t: Table, size: nat, s: State)
    requires Init(c, s)
    ensures ChunksOk(c, t, size, s.sh) && FinalOk(c, t, s.sh)
  {
    hide Chunk, Final, Ordered, SerializeChunk, BatchRows, Init;
    forall n: nat
      ensures Chunk(c, s.sh, n) == None && Final(c, s.sh) == None
    {
      NothingAtStart(c, s, n);
    }
    NothingAtStart(c, s, 0);
  }

  lemma EmptyLogFits(c: Config, t: Table, size: nat)
    ensures LogFits(c, t, []) && CutBy(c, size, [])
  {
    hide Rows;
    NoRows(c, t);
    var cps: seq<Checkpoint> := [];
    assert cps[..0] == cps;
    assert EndsRight(c, t, cps);
  }

  lemma InitData(c: Config, t: Table, size: nat, s: State)
    requires Init(c, s) && IsStable(c, t, s.sh.table)
    ensures DataOk(c, t, size, s.sh)
  {
    hide IsStable, ChunksOk, FinalOk, LogFits, CutBy;
    InitStore(c, t, size, s);
    EmptyLogFits(c, t, size);
    assert Log(s.sh) == [];
  }

  ghost predicate IsStableRun(c: Config, t: Table, size: nat, events: seq<Event>) {
    forall i :: 0 <= i < |events| ==> IsStableEvent(c, t, size, events[i])
  }

  lemma {:induction false} DataInvAlways(c: Config, t: Table, size: nat, s: State, events: seq<Event>)
    requires c.Valid() && HasTarget(c, t) && Init(c, s) && IsStable(c, t, s.sh.table)
    requires IsStableRun(c, t, size, events)
    ensures DataInv(c, t, size, Run(c, s, events))
  {
    hide DataInv, Step, Init, HasTarget, IsStable, IsStableEvent;
    if events == [] {
      InitHasData(c, t, size, s);
    } else {
      DataInvAlways(c, t, size, s, events[..|events| - 1]);
      StepKeepsData(c, t, size, Run(c, s, events[..|events| - 1]), events[|events| - 1]);
    }
  }

  // ---- What the store holds --------------------------------------------------------------------

  function Min(a: nat, b: nat): nat {
    if a < b then a else b
  }

  lemma BatchBounds(n: nat, size: nat)
    requires n >= 1
    ensures 0 <= (n - 1) * size <= n * size
  {
    assert n * size == (n - 1) * size + size;
  }

  /** The n-th batch when rows are cut into batches of `size`. */
  function IdealBatch(rows: seq<Row>, size: nat, n: nat): seq<Row>
    requires n >= 1
  {
    BatchBounds(n, size);
    rows[Min((n - 1) * size, |rows|)..Min(n * size, |rows|)]
  }

  lemma NonNegative(a: nat, b: nat)
    ensures a * b >= 0
  {
  }

  lemma {:induction false} TotalOfCut(c: Config, size: nat, cps: seq<Checkpoint>, n: nat)
    requires CutBy(c, size, cps) && n <= |cps|
    ensures n * size >= 0 && Total(cps[..n]) == Min(n * size, c.limit)
  {
    NonNegative(n, size);
    if n > 0 {
      TotalOfCut(c, size, cps, n - 1);
      TotalStep(cps, n);
      assert n * size == (n - 1) * size + size;
    } else {
      assert cps[..0] == [];
    }
  }

  /** A page of the target is a slice of it. */
  lemma PageIsSlice(c: Config, t: Table, n: nat, m: nat)
    requires HasTarget(c, t) && n + m <= c.limit
    ensures |Rows(c, t, c.limit)| == c.limit
    ensures FetchRecordBatch(t, Cursor(0, Rows(c, t, n)), c.snapshotMaxId, m) == Rows(c, t, c.limit)[n..n + m]
  {
    hide Rows, FetchRecordBatch;
    var all, page := Rows(c, t, c.limit), FetchRecordBatch(t, Cursor(0, Rows(c, t, n)), c.snapshotMaxId, m);
    RowsCount(c, t, n);
    RowsCount(c, t, n + m);
    RowsExtend(c, t, Cursor(0, Rows(c, t, n)), n, m);
    RowsExtend(c, t, Cursor(0, Rows(c, t, n + m)), n + m, c.limit - n - m);
    var rest := FetchRecordBatch(t, Cursor(0, Rows(c, t, n + m)), c.snapshotMaxId, c.limit - n - m);
    assert all == Rows(c, t, n) + page + rest;
    assert all[n..n + m] == page;
  }

  lemma RoomFits(c: Config, size: nat, count: nat)
    requires count <= c.limit
    ensures count + Room(c, size, count) == Min(count + size, c.limit)
  {
  }

  lemma BatchIsIdeal(c: Config, t: Table, size: nat, cps: seq<Checkpoint>, n: nat)
    requires HasTarget(c, t) && LogFits(c, t, cps) && CutBy(c, size, cps) && 1 <= n <= |cps| + 1
    ensures BatchRows(c, t, size, cps, n) == IdealBatch(Rows(c, t, c.limit), size, n)
  {
    hide Rows, FetchRecordBatch, HasTarget, LogFits, CutBy, Room;
    var count := Total(cps[..n - 1]);
    TotalOfCut(c, size, cps, n - 1);
    RoomFits(c, size, count);
    FitsBefore(c, t, cps, n - 1);
    PageIsSlice(c, t, count, Room(c, size, count));
    assert n * size == (n - 1) * size + size;
  }

  lemma FitsBefore(c: Config, t: Table, cps: seq<Checkpoint>, n: nat)
    requires LogFits(c, t, cps) && n <= |cps|
    ensures LastId(cps[..n]) == Cursor(0, Rows(c, t, Total(cps[..n])))
  {
    hide Rows;
    assert EndsRight(c, t, cps[..n]);
  }

  /** With a stable snapshot and a fixed batch size, in every reachable state: whatever object is stored under
      the key of batch `n` is exactly the serialisation of the n-th ideal batch, and the final object, once
      published, is exactly the header and the first `limit` rows. Neither depends on how many workers ran,
      where they crashed, or in which order they wrote. */
  lemma StoreHoldsIdealBatches(c: Config, t: Table, size: nat, s: State, events: seq<Event>, n: nat)
    requires c.Valid() && HasTarget(c, t) && Init(c, s) && IsStable(c, t, s.sh.table)
    requires IsStableRun(c, t, size, events)
    requires Chunk(c, Run(c, s, events).sh, n).Some?
    ensures n >= 1
    ensures Chunk(c, Run(c, s, events).sh, n).value == SerializeChunk(IdealBatch(Rows(c, t, c.limit), size, n))
  {
    hide Rows, FetchRecordBatch, HasTarget, Init, IsStable, IsStableRun, LogFits, CutBy, Run, SerializeChunk;
    hide BatchRows, IdealBatch, LogInv, Ordered, Chunk;
    DataInvAlways(c, t, size, s, events);
    BatchIsIdeal(c, t, size, Log(Run(c, s, events).sh), n);
  }

  lemma FinalObjectIsTarget(c: Config, t: Table, size: nat, s: State, events: seq<Event>)
    requires c.Valid() && HasTarget(c, t) && Init(c, s) && IsStable(c, t, s.sh.table)
    requires IsStableRun(c, t, size, events)
    ensures
      var file := Final(c, Run(c, s, events).sh);
      file.Some? ==> file.value == CsvFile(Rows(c, t, c.limit))
  {
    hide Rows, HasTarget, Init, IsStable, IsStableRun, LogFits, CutBy, Run, ChunksOk, LogInv, Ordered, Final, CsvFile;
    DataInvAlways(c, t, size, s, events);
  }

  /** Interruptions leave no trace in the file, and neither does the batch size: two exports of the same rows,
      whatever their workers, crashes, resumes, interleavings and batch sizes, publish the same bytes. */
  lemma FileIndependentOfHistory(
    c1: Config, size1: nat, s1: State, run1: seq<Event>, c2: Config, size2: nat, s2: State, run2: seq<Event>, t: Table)
    requires c1.Valid() && c2.Valid() && c1.snapshotMaxId == c2.snapshotMaxId && c1.limit == c2.limit
    requires HasTarget(c1, t)
    requires Init(c1, s1) && IsStable(c1, t, s1.sh.table) && IsStableRun(c1, t, size1, run1)
    requires Init(c2, s2) && IsStable(c2, t, s2.sh.table) && IsStableRun(c2, t, size2, run2)
    requires Final(c1, Run(c1, s1, run1).sh).Some? && Final(c2, Run(c2, s2, run2).sh).Some?
    ensures Final(c1, Run(c1, s1, run1).sh) == Final(c2, Run(c2, s2, run2).sh)
  {
    hide FirstRows, Init, IsStable, IsStableRun, Run, Final, CsvFile;
    FinalObjectIsTarget(c1, t, size1, s1, run1);
    FinalObjectIsTarget(c2, t, size2, s2, run2);
  }

  lemma SmallerFactor(a: int, b: int, k: nat)
    requires a * k < b * k
    ensures a < b
  {
  }

  lemma CeilingOfCut(limit: nat, size: nat, n: nat)
    requires size > 0 && limit > 0 && n >= 1
    requires n * size >= limit && (n - 1) * size < limit
    ensures n == (limit + size - 1) / size
  {
    var q := (limit + size - 1) / size;
    assert q * size <= limit + size - 1 < q * size + size;
    assert (q - 1) * size == q * size - size;
    SmallerFactor(n - 1, q, size);
    SmallerFactor(q - 1, n, size);
  }

  /** A full log has exactly ceil(limit / size) entries, whatever happened on the way. */
  lemma FullLogHasCeilingBatches(c: Config, t: Table, size: nat, s: State, events: seq<Event>)
    requires c.Valid() && HasTarget(c, t) && Init(c, s) && IsStable(c, t, s.sh.table)
    requires IsStableRun(c, t, size, events) && size > 0
    requires Total(Log(Run(c, s, events).sh)) == c.limit
    ensures |Log(Run(c, s, events).sh)| == (c.limit + size - 1) / size
  {
    hide HasTarget, Init, IsStable, IsStableRun, Run, ChunksOk, LogFits, FinalOk, Ordered, CutBy;
    var cps := Log(Run(c, s, events).sh);
    DataInvAlways(c, t, size, s, events);
    FullCut(c, size, cps);
  }

  lemma FullCut(c: Config, size: nat, cps: seq<Checkpoint>)
    requires c.limit > 0 && size > 0 && CutBy(c, size, cps) && LogOk(c, cps) && Total(cps) == c.limit
    ensures |cps| == (c.limit + size - 1) / size
  {
    hide CutBy, ValidLog;
    var n := |cps|;
    assert cps[..n] == cps;
    TotalOfCut(c, size, cps, n);
    TotalOfCut(c, size, cps, n - 1);
    TotalStep(cps, n);
    CeilingOfCut(c.limit, size, n);
  }
}
