/** What the store and the job row hold when attempts do not overlap: a run starts only after every earlier one
    has returned, thrown or crashed. Batch sizes may differ between attempts. With `base` None the table is
    rewritten at will between requests; with Some(t) its rows within the snapshot stay those of `t`. */
module SoloSafety {
  import opened Common
  import opened Csv
  import opened RecordSource
  import opened Resume
  import opened Verification
  import opened Jobs
  import opened Protocol
  import opened LogSafety

  predicate IsLive(k: Worker) {
    !k.pc.Ended?
  }

  predicate IsAllowed(c: Config, base: Option<Table>, table: Table) {
    base.Some? ==> AgreeUpTo(c.snapshotMaxId, table, base.value)
  }

  /** `count` rows after `from` that ascend strictly, end at `to` and lie within the snapshot; over a stable
      table, exactly the next `count` rows. */
  predicate AreRowsFrom(c: Config, base: Option<Table>, rows: seq<Row>, from: nat, to: nat, count: nat) {
    && |rows| == count
    && IdsWithin(rows, from, c.snapshotMaxId)
    && Cursor(from, rows) == to
    && (base.Some? ==> rows == FetchRecordBatch(base.value, from, c.snapshotMaxId, count))
  }

  ghost predicate IsChunkFrom(c: Config, base: Option<Table>, body: string, from: nat, to: nat, count: nat) {
    exists rows :: body == SerializeChunk(rows) && AreRowsFrom(c, base, rows, from, to, count)
  }

  ghost predicate IsFileUpTo(c: Config, base: Option<Table>, body: string, to: nat, count: nat) {
    exists rows :: body == CsvFile(rows) && AreRowsFrom(c, base, rows, 0, to, count)
  }

  /** The chunk of a checkpointed batch holds rows after the previous checkpoint, ending at its own id. */
  ghost predicate CommittedOk(c: Config, base: Option<Table>, sh: Shared) {
    forall n: nat :: 1 <= n <= |Log(sh)| && Chunk(c, sh, n).Some? ==>
      IsChunkFrom(
        c, base, Chunk(c, sh, n).value,
        LastId(Log(sh)[..n - 1]), Log(sh)[n - 1].lastRecordId, Log(sh)[n - 1].rowsWritten)
  }

  ghost predicate PublishedOk(c: Config, base: Option<Table>, sh: Shared) {
    Final(c, sh).Some? ==> exists to :: IsFileUpTo(c, base, Final(c, sh).value, to, c.limit)
  }

  ghost predicate SoloOk(c: Config, base: Option<Table>, sh: Shared) {
    && IsAllowed(c, base, sh.table)
    && CommittedOk(c, base, sh)
    && PublishedOk(c, base, sh)
    && ProgressMatches(sh.job, Position(Log(sh)))
  }

  ghost predicate AssemblingOk(
    c: Config, base: Option<Table>, cps: seq<Checkpoint>, batches: nat, next: nat, written: string)
  {
    1 <= next <= batches + 1 <= |cps| + 1
    && IsFileUpTo(c, base, written, LastId(cps[..next - 1]), Total(cps[..next - 1]))
  }

  ghost predicate SoloWorker(c: Config, base: Option<Table>, sh: Shared, k: Worker) {
    && (k.pc.Reconciling? || k.pc.Correcting? ==> k.pc.state == Position(Log(sh)))
    && (IsBatching(k.pc) ==> k.batch == |Log(sh)| + 1)
    && (HoldsBatch(k.pc) ==> AreRowsFrom(c, base, k.pc.rows, k.cursor, Cursor(0, k.pc.rows), |k.pc.rows|))
    && (k.pc.Confirming? || k.pc.Committing? ==> Chunk(c, sh, k.batch) == Some(SerializeChunk(k.pc.rows)))
    && (k.pc.Assembling? ==> AssemblingOk(c, base, Log(sh), k.pc.batches, k.pc.next, k.pc.written))
  }

  /** At most one run is live, and it stands at the end of the log. */
  ghost predicate SoloInv(c: Config, base: Option<Table>, s: State) {
    && LogInv(c, s)
    && SoloOk(c, base, s.sh)
    && (forall v, w :: v in s.workers && w in s.workers && IsLive(s.workers[v]) && IsLive(s.workers[w]) ==> v == w)
    && (forall w :: w in s.workers && IsLive(s.workers[w]) ==> SoloWorker(c, base, s.sh, s.workers[w]))
  }

  /** Attempts do not overlap, and the table changes only as `base` allows. */
  ghost predicate IsSoloEvent(c: Config, base: Option<Table>, s: State, e: Event) {
    && (e.WriteTable? ==> IsAllowed(c, base, e.table))
    && (e.Start? ==> forall w :: w in s.workers ==> !IsLive(s.workers[w]))
  }

  ghost predicate IsSoloRun(c: Config, base: Option<Table>, s: State, events: seq<Event>) {
    forall i :: 0 <= i < |events| ==> IsSoloEvent(c, base, Run(c, s, events[..i]), events[i])
  }

  // ---- Rows --------------------------------------------------------------------

  lemma FetchedRows(c: Config, base: Option<Table>, sh: Shared, from: nat, limit: nat)
    requires IsAllowed(c, base, sh.table)
    ensures
      var rows := FetchRecordBatch(sh.table, from, c.snapshotMaxId, limit);
      rows != [] ==> AreRowsFrom(c, base, rows, from, Cursor(0, rows), |rows|)
  {
    hide FetchRecordBatch, AgreeUpTo, IdsWithin;
    var rows := FetchRecordBatch(sh.table, from, c.snapshotMaxId, limit);
    PageIsOrdered(sh.table, from, c.snapshotMaxId, limit);
    if base.Some? {
      PagesOfAgreeingTables(sh.table, base.value, from, c.snapshotMaxId, limit);
      ShorterPage(base.value, from, c.snapshotMaxId, limit);
    }
  }

  /** A page that came back short is the page of the size it came back with. */
  lemma ShorterPage(t: Table, from: nat, snapshotMaxId: nat, limit: nat)
    ensures FetchRecordBatch(t, from, snapshotMaxId, |FetchRecordBatch(t, from, snapshotMaxId, limit)|)
         == FetchRecordBatch(t, from, snapshotMaxId, limit)
  {
  }

  lemma IdsConcat(a: seq<Row>, b: seq<Row>, snapshotMaxId: nat, from: nat)
    requires IdsWithin(a, from, snapshotMaxId) && IdsWithin(b, Cursor(from, a), snapshotMaxId)
    ensures IdsWithin(a + b, from, snapshotMaxId)
    ensures Cursor(from, a + b) == Cursor(Cursor(from, a), b)
  {
    hide RowId;
    var r := a + b;
    forall i | 0 <= i < |r|
      ensures from < RowId(r[i]) <= snapshotMaxId && r[i].id == Decimal.Print(RowId(r[i]))
    {
      if i < |a| {
        assert r[i] == a[i];
      } else {
        assert r[i] == b[i - |a|];
      }
    }
    forall i, j | 0 <= i < j < |r|
      ensures RowId(r[i]) < RowId(r[j])
    {
      if j < |a| {
        assert r[i] == a[i] && r[j] == a[j];
      } else if i < |a| {
        assert r[i] == a[i] && r[j] == b[j - |a|];
        assert RowId(a[i]) <= Cursor(from, a);
      } else {
        assert r[i] == b[i - |a|] && r[j] == b[j - |a|];
      }
    }
  }

  lemma RowsConcat(c: Config, base: Option<Table>, a: seq<Row>, b: seq<Row>, mid: nat, to: nat, n: nat, m: nat)
    requires AreRowsFrom(c, base, a, 0, mid, n) && AreRowsFrom(c, base, b, mid, to, m)
    ensures AreRowsFrom(c, base, a + b, 0, to, n + m)
  {
    hide FetchRecordBatch, IdsWithin, Cursor;
    IdsConcat(a, b, c.snapshotMaxId, 0);
    if base.Some? {
      PagesCompose(base.value, 0, c.snapshotMaxId, n, m);
    }
  }

  lemma FileGrows(c: Config, base: Option<Table>, written: string, chunk: string, mid: nat, to: nat, n: nat, m: nat)
    requires IsFileUpTo(c, base, written, mid, n) && IsChunkFrom(c, base, chunk, mid, to, m)
    ensures IsFileUpTo(c, base, written + chunk, to, n + m)
  {
    hide AreRowsFrom, CsvHeader, SerializeChunk, CsvFile;
    var a :| written == CsvFile(a) && AreRowsFrom(c, base, a, 0, mid, n);
    var b :| chunk == SerializeChunk(b) && AreRowsFrom(c, base, b, mid, to, m);
    RowsConcat(c, base, a, b, mid, to, n, m);
    ChunksConcatenate(a, b);
    FileParts(a);
    FileParts(a + b);
    Associative(CsvHeader(), SerializeChunk(a), SerializeChunk(b));
    assert written + chunk == CsvFile(a + b);
  }

  lemma EmptyFile(c: Config, base: Option<Table>)
    ensures IsFileUpTo(c, base, CsvHeader(), 0, 0)
  {
    var none: seq<Row> := [];
    assert CsvFile(none) == CsvHeader() + "";
    assert AreRowsFrom(c, base, none, 0, 0, 0) by {
      hide FetchRecordBatch;
      if base.Some? {
        PageIsOrdered(base.value, 0, c.snapshotMaxId, 0);
      }
    }
  }

  // ---- Requests that keep the data ------------------------------------------------

  predicate SameProgress(a: JobRow, b: JobRow) {
    a.lastExportedId == b.lastExportedId && a.exportedRowCount == b.exportedRowCount
  }

  lemma SameSoloOk(c: Config, base: Option<Table>, sh: Shared, sh': Shared)
    requires SoloOk(c, base, sh) && SameData(sh, sh') && ProgressMatches(sh'.job, Position(Log(sh)))
    ensures SoloOk(c, base, sh')
  {
    hide Ordered, IsChunkFrom, IsFileUpTo, IsAllowed, ProgressMatches;
    SameObjects(c, sh, sh');
  }

  lemma SameProgressMatches(a: JobRow, b: JobRow, state: ResumeState)
    requires SameProgress(a, b) && ProgressMatches(b, state)
    ensures ProgressMatches(a, state)
  {
  }

  lemma SameObjects(c: Config, sh: Shared, sh': Shared)
    requires sh'.objects == sh.objects
    ensures Final(c, sh') == Final(c, sh) && forall n: nat :: Chunk(c, sh', n) == Chunk(c, sh, n)
  {
  }

  lemma DropKeepsSolo(c: Config, base: Option<Table>, sh: Shared)
    requires c.Valid() && SoloOk(c, base, sh)
    ensures SoloOk(c, base, DropChunks(c, sh))
  {
    hide Ordered, IsChunkFrom, IsFileUpTo, IsAllowed, Final, Chunk;
    ChunkAfterDrop(c, sh, 0);
    forall n: nat
      ensures Chunk(c, DropChunks(c, sh), n) == None
    {
      ChunkAfterDrop(c, sh, n);
    }
  }

  /** Only a checkpoint and a correction write the progress columns. */
  lemma OthersKeepProgress(c: Config, sh: Shared, k: Worker)
    requires !k.pc.Committing? && !k.pc.Correcting?
    ensures SameProgress(Act(c, sh, k).sh.job, sh.job)
  {
    hide ActClaim, ActResume, ActBatch, ActAssemble, ActVerify, ActClose;
    if IsClaiming(k.pc) {
      ClaimKeepsProgress(c, sh, k);
    } else if IsResuming(k.pc) {
      ResumeKeepsProgress(sh, k);
    } else if IsBatching(k.pc) {
      BatchKeepsProgress(c, sh, k);
    } else if IsAssembling(k.pc) {
      AssembleKeepsProgress(c, sh, k);
    } else if IsVerifying(k.pc) {
      VerifyKeepsProgress(c, sh, k);
    } else {
      CloseKeepsProgress(c, sh, k);
    }
  }

  lemma ClaimKeepsProgress(c: Config, sh: Shared, k: Worker)
    ensures SameProgress(ActClaim(c, sh, k).sh.job, sh.job)
  {
  }

  lemma ResumeKeepsProgress(sh: Shared, k: Worker)
    requires !k.pc.Correcting?
    ensures SameProgress(ActResume(sh, k).sh.job, sh.job)
  {
  }

  lemma BatchKeepsProgress(c: Config, sh: Shared, k: Worker)
    requires !k.pc.Committing?
    ensures SameProgress(ActBatch(c, sh, k).sh.job, sh.job)
  {
    hide FetchRecordBatch, SerializeChunk;
  }

  lemma AssembleKeepsProgress(c: Config, sh: Shared, k: Worker)
    ensures SameProgress(ActAssemble(c, sh, k).sh.job, sh.job)
  {
  }

  lemma VerifyKeepsProgress(c: Config, sh: Shared, k: Worker)
    ensures SameProgress(ActVerify(c, sh, k).sh.job, sh.job)
  {
    hide AuditBody, IsReadable;
  }

  lemma CloseKeepsProgress(c: Config, sh: Shared, k: Worker)
    ensures SameProgress(ActClose(c, sh, k).sh.job, sh.job)
  {
  }

  lemma LightSolo(c: Config, base: Option<Table>, sh: Shared, k: Worker)
    requires IsLight(k.pc) && !k.pc.Reconciling? && !k.pc.Correcting? && !IsBatching(k.pc)
    ensures SoloWorker(c, base, sh, k)
  {
    hide AreRowsFrom, AssemblingOk;
  }

  // ---- One worker's request -----------------------------------------------------------

  lemma ResumeKeepsSolo(c: Config, base: Option<Table>, sh: Shared, k: Worker)
    requires LogOk(c, Log(sh)) && SoloOk(c, base, sh) && SoloWorker(c, base, sh, k) && IsResuming(k.pc)
    ensures var e := ActResume(sh, k); SoloOk(c, base, e.sh) && SoloWorker(c, base, e.sh, e.k)
  {
    hide Ordered, LogOk, SoloOk, AreRowsFrom, AssemblingOk, Chunk, LoadResume;
    LoadResumeIff(Log(sh));
    LogOkIsValid(c, Log(sh));
    if k.pc.Correcting? {
      CorrectedMatches(sh, k);
      SameSoloOk(c, base, sh, ActResume(sh, k).sh);
    }
  }

  lemma CorrectedMatches(sh: Shared, k: Worker)
    requires k.pc.Correcting?
    ensures ProgressMatches(ActResume(sh, k).sh.job, k.pc.state)
  {
  }

  lemma FetchKeepsSolo(c: Config, base: Option<Table>, sh: Shared, k: Worker)
    requires SoloOk(c, base, sh) && SoloWorker(c, base, sh, k) && k.pc.Fetching?
    ensures var e := ActBatch(c, sh, k); e.sh == sh && SoloWorker(c, base, sh, e.k)
  {
    hide Ordered, FetchRecordBatch, AreRowsFrom, Chunk, IsAllowed, CommittedOk, PublishedOk;
    FetchedRows(c, base, sh, k.cursor, BatchLimit(c, k));
  }

  lemma PutKeepsSolo(c: Config, base: Option<Table>, sh: Shared, k: Worker)
    requires c.Valid() && SoloOk(c, base, sh) && SoloWorker(c, base, sh, k) && k.pc.Putting?
    ensures var e := ActBatch(c, sh, k); SoloOk(c, base, e.sh) && SoloWorker(c, base, e.sh, e.k)
  {
    hide Ordered, AreRowsFrom, IsChunkFrom, IsFileUpTo, IsAllowed, ProgressMatches, Chunk, Final, SerializeChunk;
    var body := SerializeChunk(k.pc.rows);
    forall n: nat
      ensures Chunk(c, PutChunk(c, sh, k.batch, body), n) == if n == k.batch then Some(body) else Chunk(c, sh, n)
    {
      ChunkAfterPut(c, sh, k.batch, body, n);
    }
    ChunkAfterPut(c, sh, k.batch, body, 0);
  }

  lemma CommitKeepsSolo(c: Config, base: Option<Table>, sh: Shared, k: Worker)
    requires LogOk(c, Log(sh)) && WorkerOk(c, Log(sh), k) && k.pc.Committing? && k.batch !in sh.log
    requires SoloOk(c, base, sh) && SoloWorker(c, base, sh, k) && k.pc.rows != []
    ensures SoloOk(c, base, Commit(sh, k, k.pc.rows))
    ensures Log(Commit(sh, k, k.pc.rows)) == Log(sh) + [Checkpoint(k.batch, Cursor(0, k.pc.rows), |k.pc.rows|)]
  {
    hide Ordered, LogOk, OnLog, IsBatch, AreRowsFrom, IsFileUpTo, IsAllowed, Commit, FetchRecordBatch;
    var rows, cps := k.pc.rows, Log(sh);
    var sh' := Commit(sh, k, rows);
    CommitKeepsLog(c, sh, k, rows);
    FreeBatchIsNext(c, sh, k);
    CommitKeepsObjects(c, sh, k, rows);
    CommittedGrows(c, base, sh, sh', Checkpoint(k.batch, Cursor(0, rows), |rows|), rows);
    CommitProgress(sh, k, rows);
    TotalAppend(cps, Checkpoint(k.batch, Cursor(0, rows), |rows|));
  }

  lemma CommitKeepsObjects(c: Config, sh: Shared, k: Worker, rows: seq<Row>)
    requires rows != []
    ensures
      var sh' := Commit(sh, k, rows);
      sh'.table == sh.table && Final(c, sh') == Final(c, sh) && forall n: nat :: Chunk(c, sh', n) == Chunk(c, sh, n)
  {
  }

  lemma CommitProgress(sh: Shared, k: Worker, rows: seq<Row>)
    requires rows != []
    ensures Commit(sh, k, rows).job.lastExportedId == Some(Cursor(0, rows))
    ensures Commit(sh, k, rows).job.exportedRowCount == k.count + |rows|
  {
  }

  lemma CommittedGrows(c: Config, base: Option<Table>, sh: Shared, sh': Shared, cp: Checkpoint, rows: seq<Row>)
    requires CommittedOk(c, base, sh) && Log(sh') == Log(sh) + [cp]
    requires forall n: nat :: Chunk(c, sh', n) == Chunk(c, sh, n)
    requires Chunk(c, sh, |Log(sh)| + 1) == Some(SerializeChunk(rows))
    requires AreRowsFrom(c, base, rows, LastId(Log(sh)), cp.lastRecordId, cp.rowsWritten)
    ensures CommittedOk(c, base, sh')
  {
    hide Ordered, AreRowsFrom, Chunk, SerializeChunk;
    var cps := Log(sh);
    assert (cps + [cp])[..|cps|] == cps;
    assert IsChunkFrom(c, base, SerializeChunk(rows), LastId(cps), cp.lastRecordId, cp.rowsWritten);
    hide IsChunkFrom;
    forall n: nat | 1 <= n <= |cps| + 1 && Chunk(c, sh', n).Some?
      ensures IsChunkFrom(
        c, base, Chunk(c, sh', n).value,
        LastId((cps + [cp])[..n - 1]), (cps + [cp])[n - 1].lastRecordId, (cps + [cp])[n - 1].rowsWritten)
    {
      assert (cps + [cp])[..n - 1] == cps[..n - 1];
      assert n == |cps| + 1 ==> cps[..n - 1] == cps;
    }
  }

  lemma CommitStepKeepsSolo(c: Config, base: Option<Table>, sh: Shared, k: Worker)
    requires LogOk(c, Log(sh)) && WorkerOk(c, Log(sh), k) && k.pc.Committing?
    requires SoloOk(c, base, sh) && SoloWorker(c, base, sh, k)
    ensures var e := ActBatch(c, sh, k); SoloOk(c, base, e.sh) && SoloWorker(c, base, e.sh, e.k)
  {
    hide Ordered, LogOk, WorkerOk, AreRowsFrom, SoloOk, Commit, Chunk, SerializeChunk;
    if k.pc.rows != [] && k.batch !in sh.log {
      CommitKeepsSolo(c, base, sh, k);
    }
  }

  lemma BatchKeepsSolo(c: Config, base: Option<Table>, sh: Shared, k: Worker)
    requires c.Valid() && LogOk(c, Log(sh)) && WorkerOk(c, Log(sh), k) && IsBatching(k.pc)
    requires SoloOk(c, base, sh) && SoloWorker(c, base, sh, k)
    ensures var e := ActBatch(c, sh, k); SoloOk(c, base, e.sh) && SoloWorker(c, base, e.sh, e.k)
  {
    hide LogOk, WorkerOk, SoloOk, SoloWorker, ActBatch;
    match k.pc
    case LoopHead => WaitKeepsSolo(c, base, sh, k);
    case Fetching => FetchKeepsSolo(c, base, sh, k);
    case Putting(rows) => PutKeepsSolo(c, base, sh, k);
    case Confirming(rows) => WaitKeepsSolo(c, base, sh, k);
    case Committing(rows) => CommitStepKeepsSolo(c, base, sh, k);
  }

  lemma WaitKeepsSolo(c: Config, base: Option<Table>, sh: Shared, k: Worker)
    requires SoloWorker(c, base, sh, k) && (k.pc.LoopHead? || k.pc.Confirming?)
    ensures var e := ActBatch(c, sh, k); e.sh == sh && SoloWorker(c, base, sh, e.k)
  {
    hide Ordered, AreRowsFrom, Chunk, SerializeChunk;
  }

  lemma NextChunkKeepsSolo(c: Config, base: Option<Table>, sh: Shared, batches: nat, next: nat, written: string)
    requires SoloOk(c, base, sh) && AssemblingOk(c, base, Log(sh), batches, next, written)
    requires next <= batches && Chunk(c, sh, next).Some?
    ensures AssemblingOk(c, base, Log(sh), batches, next + 1, written + Chunk(c, sh, next).value)
  {
    hide Ordered, IsChunkFrom, IsFileUpTo, IsAllowed, PublishedOk, ProgressMatches, Chunk, Total;
    var cps := Log(sh);
    TotalStep(cps, next);
    FileGrows(c, base, written, Chunk(c, sh, next).value, LastId(cps[..next - 1]), cps[next - 1].lastRecordId,
      Total(cps[..next - 1]), cps[next - 1].rowsWritten);
  }

  lemma PublishKeepsSolo(c: Config, base: Option<Table>, sh: Shared, k: Worker)
    requires c.Valid() && SoloOk(c, base, sh) && WorkerOk(c, Log(sh), k) && k.pc.Assembling? && k.pc.next > k.pc.batches
    requires AssemblingOk(c, base, Log(sh), k.pc.batches, k.pc.next, k.pc.written)
    ensures SoloOk(c, base, ActAssemble(c, sh, k).sh)
  {
    hide Ordered, IsChunkFrom, IsFileUpTo, IsAllowed, ProgressMatches, Chunk, Final, Total;
    var sh' := ActAssemble(c, sh, k).sh;
    ChunkAfterPublish(c, sh, k.pc.written, 0);
    forall n: nat
      ensures Chunk(c, sh', n) == Chunk(c, sh, n)
    {
      ChunkAfterPublish(c, sh, k.pc.written, n);
    }
    assert IsFileUpTo(c, base, k.pc.written, LastId(Log(sh)[..k.pc.batches]), c.limit);
  }

  lemma AssembleKeepsSolo(c: Config, base: Option<Table>, sh: Shared, k: Worker)
    requires c.Valid() && LogOk(c, Log(sh)) && WorkerOk(c, Log(sh), k) && IsAssembling(k.pc)
    requires SoloOk(c, base, sh) && SoloWorker(c, base, sh, k)
    ensures var e := ActAssemble(c, sh, k); SoloOk(c, base, e.sh) && SoloWorker(c, base, e.sh, e.k)
  {
    hide Ordered, LogOk, OnLog, IsBatch, SoloOk, AssemblingOk, Chunk, LoadResume, AreRowsFrom, CsvHeader, IsFileUpTo;
    match k.pc
    case CrossChecking =>
    case Promoting(batches) =>
      PromoteKeepsSolo(c, base, sh, k);
    case Assembling(batches, next, written) =>
      if next > batches {
        PublishKeepsSolo(c, base, sh, k);
      } else if Chunk(c, sh, next).Some? {
        NextChunkKeepsSolo(c, base, sh, batches, next, written);
      }
  }

  lemma PromoteKeepsSolo(c: Config, base: Option<Table>, sh: Shared, k: Worker)
    requires WorkerOk(c, Log(sh), k) && SoloOk(c, base, sh) && k.pc.Promoting?
    ensures
      var e := ActAssemble(c, sh, k);
      SoloOk(c, base, e.sh) && AssemblingOk(c, base, Log(e.sh), k.pc.batches, 1, CsvHeader())
  {
    hide Ordered, CommittedOk, PublishedOk, ProgressMatches, IsAllowed, IsFileUpTo, CsvHeader;
    EmptyFile(c, base);
    assert Log(sh)[..0] == [];
    AssembleKeepsProgress(c, sh, k);
    SameProgressMatches(ActAssemble(c, sh, k).sh.job, sh.job, Position(Log(sh)));
    SameSoloOk(c, base, sh, ActAssemble(c, sh, k).sh);
  }

  lemma OthersKeepSolo(c: Config, base: Option<Table>, sh: Shared, k: Worker)
    requires c.Valid() && SoloOk(c, base, sh)
    requires !IsResuming(k.pc) && !IsBatching(k.pc) && !IsAssembling(k.pc)
    ensures var e := Act(c, sh, k); SoloOk(c, base, e.sh) && SoloWorker(c, base, e.sh, e.k)
  {
    hide Act, Ordered, CommittedOk, PublishedOk, ProgressMatches, IsAllowed, DropChunks, SoloWorker;
    var e := Act(c, sh, k);
    OtherActsAreLight(c, sh, k);
    OthersKeepProgress(c, sh, k);
    OthersStayOutside(c, sh, k);
    LightSolo(c, base, e.sh, e.k);
    if SameData(sh, e.sh) {
      SameProgressMatches(e.sh.job, sh.job, Position(Log(sh)));
      SameSoloOk(c, base, sh, e.sh);
    } else {
      DropKeepsSolo(c, base, sh);
    }
  }

  lemma OthersStayOutside(c: Config, sh: Shared, k: Worker)
    requires !IsResuming(k.pc) && !IsBatching(k.pc) && !IsAssembling(k.pc)
    ensures var pc := Act(c, sh, k).k.pc; !pc.Reconciling? && !pc.Correcting? && !IsBatching(pc)
  {
    hide ActClaim, ActVerify, ActClose;
    if IsClaiming(k.pc) {
      ClaimIsQuiet(c, sh, k);
    } else if IsVerifying(k.pc) {
      VerifyIsQuiet(c, sh, k);
    } else {
      CloseStaysOutside(c, sh, k);
    }
  }

  lemma CloseStaysOutside(c: Config, sh: Shared, k: Worker)
    requires !IsResuming(k.pc) && !IsBatching(k.pc)
    ensures var pc := ActClose(c, sh, k).k.pc; !pc.Reconciling? && !pc.Correcting? && !IsBatching(pc)
  {
  }

  lemma ActKeepsSolo(c: Config, base: Option<Table>, sh: Shared, k: Worker)
    requires c.Valid() && LogOk(c, Log(sh)) && WorkerOk(c, Log(sh), k)
    requires SoloOk(c, base, sh) && SoloWorker(c, base, sh, k)
    ensures var e := Act(c, sh, k); SoloOk(c, base, e.sh) && SoloWorker(c, base, e.sh, e.k)
  {
    hide LogOk, WorkerOk, SoloOk, SoloWorker, Ordered, ActClaim, ActResume, ActBatch, ActAssemble, ActVerify, ActClose;
    if IsResuming(k.pc) {
      ResumeKeepsSolo(c, base, sh, k);
    } else if IsBatching(k.pc) {
      BatchKeepsSolo(c, base, sh, k);
    } else if IsAssembling(k.pc) {
      AssembleKeepsSolo(c, base, sh, k);
    } else {
      OthersKeepSolo(c, base, sh, k);
    }
  }

  lemma FewerCommittedOk(c: Config, base: Option<Table>, sh: Shared, sh': Shared)
    requires CommittedOk(c, base, sh) && sh'.log == sh.log
    requires forall n: nat :: Chunk(c, sh', n).Some? ==> Chunk(c, sh', n) == Chunk(c, sh, n)
    ensures CommittedOk(c, base, sh')
  {
    hide Chunk, IsChunkFrom, Ordered;
  }

  lemma PageKeepsSolo(c: Config, base: Option<Table>, sh: Shared, k: Worker, keys: set<string>)
    requires c.Valid() && SoloOk(c, base, sh) && IsDeleting(k.pc)
    ensures SoloOk(c, base, DropPage(c, sh, keys)) && SoloWorker(c, base, DropPage(c, sh, keys), k)
  {
    hide Ordered, IsFileUpTo, IsAllowed, CommittedOk, ProgressMatches, Chunk, Final, DropPage, SoloWorker;
    PageKeepsRow(c, sh, keys);
    ChunkAfterPage(c, sh, keys, 0);
    forall n: nat
      ensures Chunk(c, DropPage(c, sh, keys), n).Some? ==> Chunk(c, DropPage(c, sh, keys), n) == Chunk(c, sh, n)
    {
      ChunkAfterPage(c, sh, keys, n);
    }
    FewerCommittedOk(c, base, sh, DropPage(c, sh, keys));
    LightSolo(c, base, DropPage(c, sh, keys), k);
  }

  lemma LuckKeepsSolo(c: Config, base: Option<Table>, sh: Shared, k: Worker, luck: Luck)
    requires c.Valid() && LogOk(c, Log(sh)) && WorkerOk(c, Log(sh), k)
    requires SoloOk(c, base, sh) && SoloWorker(c, base, sh, k)
    ensures
      var e := ActWithLuck(c, sh, k, luck);
      SoloOk(c, base, e.sh) && SoloWorker(c, base, e.sh, e.k)
  {
    hide LogOk, WorkerOk, SoloOk, SoloWorker, Ordered, Act, DropPage;
    if luck.DeletesPage? && IsDeleting(k.pc) {
      PageKeepsSolo(c, base, sh, k, luck.keys);
    }
    ActKeepsSolo(c, base, sh, k);
    var e := Act(c, sh, k);
    LightSolo(c, base, sh, Thrown(k.pc, k));
    LightSolo(c, base, e.sh, Thrown(k.pc, e.k));
    LightSolo(c, base, sh, k.At(Ended(Crashed)));
  }

  // ---- Every run ---------------------------------------------------------------------

  lemma SharedStepKeepsSolo(c: Config, base: Option<Table>, sh: Shared, e: Event)
    requires SoloOk(c, base, sh) && (e.WriteTable? ==> IsAllowed(c, base, e.table))
    ensures SoloOk(c, base, StepShared(c, sh, e))
  {
    hide Ordered, IsChunkFrom, IsFileUpTo, AgreeUpTo, ProgressMatches, StepShared, Chunk, Final;
    SharedStepKeeps(c, sh, e);
    SharedStepKeepsProgress(c, sh, e);
    SameProgressMatches(StepShared(c, sh, e).job, sh.job, Position(Log(sh)));
  }

  lemma SharedStepKeepsProgress(c: Config, sh: Shared, e: Event)
    ensures SameProgress(StepShared(c, sh, e).job, sh.job)
    ensures e.WriteTable? ==> StepShared(c, sh, e).table == e.table
  {
    hide AuditBody, IsReadable;
  }

  lemma SoloWorkerFramed(c: Config, base: Option<Table>, sh: Shared, sh': Shared, k: Worker)
    requires SoloWorker(c, base, sh, k) && sh'.log == sh.log && forall n: nat :: Chunk(c, sh', n) == Chunk(c, sh, n)
    ensures SoloWorker(c, base, sh', k)
  {
    hide Ordered, AreRowsFrom, AssemblingOk, Chunk, SerializeChunk;
  }

  lemma JobWriteKeepsSolo(c: Config, base: Option<Table>, sh: Shared, row: JobRow)
    requires SoloOk(c, base, sh) && SameProgress(row, sh.job)
    ensures SoloOk(c, base, WriteJob(sh, row))
  {
    hide Ordered, CommittedOk, PublishedOk, IsAllowed, ProgressMatches;
    SameProgressMatches(row, sh.job, Position(Log(sh)));
    SameSoloOk(c, base, sh, WriteJob(sh, row));
  }

  lemma OthersEnded(c: Config, base: Option<Table>, s: State, w: nat)
    requires SoloInv(c, base, s) && w in s.workers && IsLive(s.workers[w])
    ensures forall v :: v in s.workers && v != w ==> !IsLive(s.workers[v])
  {
    hide LogInv, SoloOk, SoloWorker;
  }

  lemma LiveWorks(c: Config, base: Option<Table>, s: State, w: nat, sh: Shared, k: Worker)
    requires w in s.workers && forall v :: v in s.workers && v != w ==> !IsLive(s.workers[v])
    requires LogInv(c, s.(sh := sh, workers := s.workers[w := k]))
    requires SoloOk(c, base, sh) && SoloWorker(c, base, sh, k)
    ensures SoloInv(c, base, s.(sh := sh, workers := s.workers[w := k]))
  {
    hide LogInv, SoloOk, SoloWorker;
  }

  lemma LiveWorkKeepsSolo(c: Config, base: Option<Table>, s: State, w: nat, luck: Luck)
    requires c.Valid() && SoloInv(c, base, s) && w in s.workers && IsLive(s.workers[w])
    ensures
      var e := ActWithLuck(c, s.sh, s.workers[w], luck);
      SoloOk(c, base, e.sh) && SoloWorker(c, base, e.sh, e.k)
  {
    hide LogOk, WorkerOk, SoloOk, SoloWorker, Ordered, ActWithLuck;
    LuckKeepsSolo(c, base, s.sh, s.workers[w], luck);
  }

  lemma EndedDoesNothing(c: Config, s: State, w: nat, luck: Luck)
    requires w in s.workers && !IsLive(s.workers[w])
    ensures Step(c, s, Work(w, luck)) == s
  {
    hide Act;
    assert s.workers[w := s.workers[w]] == s.workers;
  }

  lemma SoloHasLog(c: Config, base: Option<Table>, s: State)
    requires SoloInv(c, base, s)
    ensures LogInv(c, s)
  {
  }

  lemma WorkKeepsSolo(c: Config, base: Option<Table>, s: State, w: nat, luck: Luck)
    requires c.Valid() && SoloInv(c, base, s) && w in s.workers
    ensures SoloInv(c, base, Step(c, s, Work(w, luck)))
  {
    hide SoloInv, LogInv, SoloOk, SoloWorker, IsLive, ActWithLuck, Step;
    WorkIs(c, s, w, luck);
    SoloHasLog(c, base, s);
    StepKeepsLog(c, s, Work(w, luck));
    if IsLive(s.workers[w]) {
      OthersEnded(c, base, s, w);
      LiveWorkKeepsSolo(c, base, s, w, luck);
      var e := ActWithLuck(c, s.sh, s.workers[w], luck);
      LiveWorks(c, base, s, w, e.sh, e.k);
    } else {
      EndedDoesNothing(c, s, w, luck);
    }
  }

  lemma ReportKeepsSolo(c: Config, base: Option<Table>, sh: Shared, report: Report)
    requires SoloOk(c, base, sh)
    ensures SoloOk(c, base, AddReport(sh, report))
  {
    hide Ordered, CommittedOk, PublishedOk, IsAllowed, ProgressMatches;
    SameSoloOk(c, base, sh, AddReport(sh, report));
  }

  lemma EnvironmentKeepsSolo(c: Config, base: Option<Table>, s: State, sh': Shared)
    requires SoloInv(c, base, s) && SoloOk(c, base, sh') && sh'.log == s.sh.log
    requires forall n: nat :: Chunk(c, sh', n) == Chunk(c, s.sh, n)
    ensures forall w :: w in s.workers && IsLive(s.workers[w]) ==> SoloWorker(c, base, sh', s.workers[w])
  {
    hide LogInv, SoloOk, SoloWorker, Chunk;
    forall w | w in s.workers && IsLive(s.workers[w])
      ensures SoloWorker(c, base, sh', s.workers[w])
    {
      SoloWorkerFramed(c, base, s.sh, sh', s.workers[w]);
    }
  }

  lemma StepKeepsSolo(c: Config, base: Option<Table>, s: State, e: Event)
    requires c.Valid() && SoloInv(c, base, s) && IsSoloEvent(c, base, s, e)
    ensures SoloInv(c, base, Step(c, s, e))
  {
    hide LogInv, SoloOk, SoloWorker, Ordered, StepShared, ActWithLuck, IsAllowed, Chunk, Final;
    StepKeepsLog(c, s, e);
    match e
    case Work(w, luck) =>
      if w in s.workers {
        WorkKeepsSolo(c, base, s, w, luck);
      }
    case WriteQueued =>
      JobWriteKeepsSolo(c, base, s.sh, SetStatus(s.sh.job, Queued, s.sh.now));
      SameObjects(c, s.sh, WriteStatus(s.sh, Queued));
      EnvironmentKeepsSolo(c, base, s, WriteStatus(s.sh, Queued));
    case Answer(id) =>
      if id in s.requests {
        var row := Answered(s.sh.job, s.requests[id], s.sh.now);
        JobWriteKeepsSolo(c, base, s.sh, row);
        SameObjects(c, s.sh, WriteJob(s.sh, row));
        EnvironmentKeepsSolo(c, base, s, WriteJob(s.sh, row));
      }
    case Ask(id, kind) =>
    case Reverify(id, size) =>
    case Record(id) =>
      if id in s.audits {
        ReportKeepsSolo(c, base, s.sh, s.audits[id]);
        SameObjects(c, s.sh, AddReport(s.sh, s.audits[id]));
        EnvironmentKeepsSolo(c, base, s, AddReport(s.sh, s.audits[id]));
      }
    case Start(w, batchSize) => LightSolo(c, base, s.sh, NewWorker(batchSize));
    case _ =>
      SharedStepKeepsSolo(c, base, s.sh, e);
      SharedStepKeeps(c, s.sh, e);
      EnvironmentKeepsSolo(c, base, s, StepShared(c, s.sh, e));
  }

  lemma InitHasSolo(c: Config, base: Option<Table>, s: State)
    requires Init(c, s) && IsAllowed(c, base, s.sh.table)
    ensures SoloInv(c, base, s)
  {
    hide IsAllowed, Final, IsFileUpTo, IsChunkFrom;
    InitHasLog(c, s);
    NothingAtStart(c, s, 0);
    assert Log(s.sh) == [];
  }

  lemma {:induction false} SoloInvAlways(c: Config, base: Option<Table>, s: State, events: seq<Event>)
    requires c.Valid() && Init(c, s) && IsAllowed(c, base, s.sh.table) && IsSoloRun(c, base, s, events)
    ensures SoloInv(c, base, Run(c, s, events))
  {
    hide SoloInv, Step, Init, IsAllowed, IsSoloEvent;
    if events == [] {
      InitHasSolo(c, base, s);
    } else {
      var before := events[..|events| - 1];
      assert forall i :: 0 <= i < |before| ==> before[..i] == events[..i];
      SoloInvAlways(c, base, s, before);
      StepKeepsSolo(c, base, Run(c, s, before), events[|events| - 1]);
    }
  }

  // ---- What an export without overlapping attempts gives --------------------------------

  /** Whatever happens to the table between requests, the chunk of a checkpointed batch, if it is there, holds as
      many rows as the checkpoint says, ascending, all after the previous checkpoint's id and ending at its own. */
  lemma CheckpointedChunkIsInPlace(c: Config, s: State, events: seq<Event>, n: nat)
    requires c.Valid() && Init(c, s) && IsSoloRun(c, None, s, events)
    requires 1 <= n <= |Log(Run(c, s, events).sh)| && Chunk(c, Run(c, s, events).sh, n).Some?
    ensures
      var sh := Run(c, s, events).sh;
      var cps := Log(sh);
      exists rows ::
        && Chunk(c, sh, n).value == SerializeChunk(rows)
        && |rows| == cps[n - 1].rowsWritten
        && IdsWithin(rows, LastId(cps[..n - 1]), c.snapshotMaxId)
        && Cursor(LastId(cps[..n - 1]), rows) == cps[n - 1].lastRecordId
  {
    hide Run, Init, IsSoloRun, Ordered, IdsWithin, Chunk, SerializeChunk, LogInv, PublishedOk;
    SoloInvAlways(c, None, s, events);
    var sh := Run(c, s, events).sh;
    var from, cp := LastId(Log(sh)[..n - 1]), Log(sh)[n - 1];
    assert IsChunkFrom(c, None, Chunk(c, sh, n).value, from, cp.lastRecordId, cp.rowsWritten);
  }

  /** ...so every published file has exactly the rows asked for, free of duplicates, ascending and within the
      snapshot, even though the table moved under the export. */
  lemma PublishedFileIsOrdered(c: Config, s: State, events: seq<Event>)
    requires c.Valid() && Init(c, s) && IsSoloRun(c, None, s, events) && Final(c, Run(c, s, events).sh).Some?
    ensures exists rows ::
      && Final(c, Run(c, s, events).sh).value == CsvFile(rows)
      && |rows| == c.limit
      && IdsWithin(rows, 0, c.snapshotMaxId)
  {
    hide Run, Init, IsSoloRun, Ordered, IdsWithin, Final, CsvFile, LogInv, CommittedOk;
    SoloInvAlways(c, None, s, events);
    var to :| IsFileUpTo(c, None, Final(c, Run(c, s, events).sh).value, to, c.limit);
  }

  /** Over a stable table the file is the target, even when every attempt uses its own batch size. */
  lemma PublishedFileIsTarget(c: Config, t: Table, s: State, events: seq<Event>)
    requires c.Valid() && Init(c, s) && AgreeUpTo(c.snapshotMaxId, s.sh.table, t) && IsSoloRun(c, Some(t), s, events)
    requires Final(c, Run(c, s, events).sh).Some?
    ensures Final(c, Run(c, s, events).sh).value == CsvFile(FirstRows(t, c.snapshotMaxId, c.limit))
  {
    hide Run, Init, IsSoloRun, Ordered, IdsWithin, Final, CsvFile, LogInv, CommittedOk, AgreeUpTo, FetchRecordBatch;
    SoloInvAlways(c, Some(t), s, events);
    var to :| IsFileUpTo(c, Some(t), Final(c, Run(c, s, events).sh).value, to, c.limit);
  }

  /** The row's progress is the fold of the log in every reachable state. */
  lemma ProgressIsFoldOfLog(c: Config, s: State, events: seq<Event>)
    requires c.Valid() && Init(c, s) && IsSoloRun(c, None, s, events)
    ensures
      var sh := Run(c, s, events).sh;
      && sh.job.exportedRowCount == Total(Log(sh))
      && (if sh.job.lastExportedId.Some? then sh.job.lastExportedId.value else 0) == LastId(Log(sh))
  {
    hide Run, Init, IsSoloRun, Ordered, LogInv, CommittedOk, PublishedOk;
    SoloInvAlways(c, None, s, events);
  }

  /** Two exports of the same rows, each interrupted and resumed at will with batch sizes of its own, publish the
      same bytes; one of them may be a run without interruption. */
  lemma FileIndependentOfAttempts(
    c1: Config, s1: State, run1: seq<Event>, c2: Config, s2: State, run2: seq<Event>, t: Table)
    requires c1.Valid() && c2.Valid() && c1.snapshotMaxId == c2.snapshotMaxId && c1.limit == c2.limit
    requires Init(c1, s1) && AgreeUpTo(c1.snapshotMaxId, s1.sh.table, t) && IsSoloRun(c1, Some(t), s1, run1)
    requires Init(c2, s2) && AgreeUpTo(c2.snapshotMaxId, s2.sh.table, t) && IsSoloRun(c2, Some(t), s2, run2)
    requires Final(c1, Run(c1, s1, run1).sh).Some? && Final(c2, Run(c2, s2, run2).sh).Some?
    ensures Final(c1, Run(c1, s1, run1).sh) == Final(c2, Run(c2, s2, run2).sh)
  {
    hide Run, Init, IsSoloRun, Final, CsvFile, AgreeUpTo, FirstRows;
    PublishedFileIsTarget(c1, t, s1, run1);
    PublishedFileIsTarget(c2, t, s2, run2);
  }

  /** The attempts that ended with an upload they had not checkpointed. */
  function Wasted(workers: map<nat, Worker>): set<nat> {
    set w | w in workers && workers[w].unsettled && !IsLive(workers[w])
  }

  lemma OneInFlight(workers: map<nat, Worker>)
    requires forall v, w :: v in workers && w in workers && IsLive(workers[v]) && IsLive(workers[w]) ==> v == w
    ensures |Unsettled(workers)| <= |Wasted(workers)| + 1
  {
    if live :| live in workers && IsLive(workers[live]) {
      SubsetCard(Unsettled(workers), Wasted(workers) + {live});
    } else {
      SubsetCard(Unsettled(workers), Wasted(workers));
    }
  }

  /** All the uploads of a history: one for each checkpoint, at most one for each attempt that ended before its
      checkpoint, and at most one in flight. */
  lemma UploadsOfAttempts(c: Config, s: State, events: seq<Event>)
    requires c.Valid() && Init(c, s) && IsSoloRun(c, None, s, events)
    ensures var s' := Run(c, s, events); s'.sh.puts <= |s'.sh.log| + |Wasted(s'.workers)| + 1
  {
    hide Run, Init, IsSoloRun, LogInv, SoloOk, SoloWorker, Unsettled, Wasted;
    SoloInvAlways(c, None, s, events);
    UploadsConserved(c, s, events);
    OneInFlight(Run(c, s, events).workers);
  }
}
