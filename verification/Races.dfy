/** Two runs in which a worker that is slow, not dead, loses its job and goes on: what the heartbeat cannot prevent. */
module Races {
  import opened Common
  import opened Csv
  import opened RecordSource
  import opened Storage
  import opened Resume
  import opened Verification
  import opened Jobs
  import opened Protocol
  import opened LogSafety
  import opened Ownership
  import CsvParser
  import Decimal
  import Delivery

  ghost predicate Reaches(c: Config, s: State, s': State) {
    exists events :: Run(c, s, events) == s'
  }

  lemma Start0(c: Config, s: State)
    ensures Reaches(c, s, s)
  {
    assert Run(c, s, []) == s;
  }

  lemma Then(c: Config, s: State, s': State, e: Event)
    requires Reaches(c, s, s')
    ensures Reaches(c, s, Step(c, s', e))
  {
    hide Step;
    var events :| Run(c, s, events) == s';
    assert (events + [e])[..|events|] == events;
    assert Run(c, s, events + [e]) == Step(c, s', e);
  }

  function At(s: State, time: int): State {
    s.(sh := s.sh.(now := time))
  }

  lemma {:induction false} Wait(c: Config, s: State, s': State, ticks: nat)
    requires Reaches(c, s, s')
    ensures Reaches(c, s, At(s', s'.sh.now + ticks))
  {
    if ticks > 0 {
      Wait(c, s, s', ticks - 1);
      Then(c, s, At(s', s'.sh.now + ticks - 1), Tick);
    }
  }

  // ---- Requests in a row ---------------------------------------------------------------

  /** The next `n` requests of a worker, all of which succeed. */
  function Requests(c: Config, sh: Shared, k: Worker, n: nat): Effect
    decreases n
  {
    if n == 0 then Effect(sh, k)
    else
      var e := Act(c, sh, k);
      Requests(c, e.sh, e.k, n - 1)
  }

  lemma {:induction false} ThenRequests(c: Config, s: State, s': State, w: nat, n: nat)
    requires Reaches(c, s, s') && w in s'.workers
    ensures Reaches(c, s, After(s', w, Requests(c, s'.sh, s'.workers[w], n)))
    decreases n
  {
    hide Act, Reaches;
    var k := s'.workers[w];
    if n == 0 {
      assert After(s', w, Effect(s'.sh, k)) == s';
    } else if k.pc.Ended? {
      EndedRests(c, s'.sh, k, n);
      assert After(s', w, Effect(s'.sh, k)) == s';
    } else {
      WorkIs(c, s', w, Proceeds);
      Then(c, s, s', Work(w, Proceeds));
      var s'' := Step(c, s', Work(w, Proceeds));
      ThenRequests(c, s, s'', w, n - 1);
      var e := Requests(c, s'.sh, k, n);
      assert After(s'', w, e) == After(s', w, e);
    }
  }

  lemma {:induction false} EndedRests(c: Config, sh: Shared, k: Worker, n: nat)
    requires k.pc.Ended?
    ensures Requests(c, sh, k, n) == Effect(sh, k)
  {
    hide ActClaim, ActResume, ActBatch, ActAssemble, ActVerify;
    if n > 0 {
      EndedRests(c, sh, k, n - 1);
    }
  }

  lemma {:induction false} RequestsInTwo(c: Config, sh: Shared, k: Worker, n: nat, m: nat)
    ensures var e := Requests(c, sh, k, n); Requests(c, sh, k, n + m) == Requests(c, e.sh, e.k, m)
    decreases n
  {
    hide Act;
    if n > 0 {
      var e := Act(c, sh, k);
      RequestsInTwo(c, e.sh, e.k, n - 1, m);
    }
  }

  lemma OneRequest(c: Config, sh: Shared, k: Worker)
    ensures Requests(c, sh, k, 1) == Act(c, sh, k)
  {
    hide Act;
    assert Requests(c, Act(c, sh, k).sh, Act(c, sh, k).k, 0) == Act(c, sh, k);
  }

  /** From pickup to a won claim. */
  lemma ClaimRequests(c: Config, sh: Shared, size: nat)
    requires IsClaimable(sh.job, sh.now - c.stallTimeout) && !sh.job.cancelRequested
    ensures Requests(c, sh, NewWorker(size), 3) == Effect(WriteStatus(sh, Running), NewWorker(size).At(Stamping))
  {
    hide ActResume, ActBatch, ActAssemble, ActVerify, ActClose;
    var k := NewWorker(size);
    OneRequest(c, sh, k);
    OneRequest(c, sh, k.At(Admitted));
    OneRequest(c, sh, k.At(Claiming(sh.now - c.stallTimeout)));
    RequestsInTwo(c, sh, k, 1, 2);
    RequestsInTwo(c, sh, k.At(Admitted), 1, 1);
  }

  /** Worker `w` picks the job up and wins it. */
  function Claimed(s: State, w: nat, size: nat): State {
    After(s, w, Effect(WriteStatus(s.sh, Running), NewWorker(size).At(Stamping)))
  }

  lemma ThenClaim(c: Config, s: State, s': State, w: nat, size: nat)
    requires Reaches(c, s, s') && w !in s'.workers
    requires IsClaimable(s'.sh.job, s'.sh.now - c.stallTimeout) && !s'.sh.job.cancelRequested
    ensures Reaches(c, s, Claimed(s', w, size))
  {
    hide Act, Reaches, Requests;
    Then(c, s, s', Start(w, size));
    var s'' := s'.(workers := s'.workers[w := NewWorker(size)]);
    ThenRequests(c, s, s'', w, 3);
    ClaimRequests(c, s'.sh, size);
    assert After(s'', w, Requests(c, s'.sh, NewWorker(size), 3)) == Claimed(s', w, size);
  }

  lemma QueuedIsClaimable(c: Config, s: State) returns (s1: State)
    requires Init(c, s)
    ensures Reaches(c, s, s1) && s1.workers == map[] && !s1.sh.job.cancelRequested
    ensures IsClaimable(s1.sh.job, s1.sh.now - c.stallTimeout) && s1.sh.job.updatedAt <= s1.sh.now
  {
    hide Reaches, IsClaimable, Step;
    QueuedRow(c, s);
    s1 := Step(c, s, WriteQueued);
    ResumableIsClaimable(s1.sh.job, s1.sh.now - c.stallTimeout);
  }

  /** A worker claims the job and then lets the stall timeout pass. */
  lemma ClaimedAndSlow(c: Config, s: State, size: nat) returns (s': State)
    requires Init(c, s)
    ensures Reaches(c, s, s') && IsOwner(s', 1) && s'.workers.Keys == {1}
    ensures IsStale(s'.sh.job, s'.sh.now - c.stallTimeout) && !s'.sh.job.cancelRequested
  {
    hide Init, Run, Reaches, IsClaimable, Owns, Step;
    var s1 := QueuedIsClaimable(c, s);
    ThenClaim(c, s, s1, 1, size);
    Wait(c, s, Claimed(s1, 1, size), c.stallTimeout + 1);
    StampingOwns(size);
    s' := At(Claimed(s1, 1, size), s1.sh.now + c.stallTimeout + 1);
  }

  /** A live worker that lets the stall timeout pass loses its job to a second one: both then own it and go on, for any
      stall timeout. That two workers never write one export at the same time is false of the code. */
  lemma SlowWorkerLosesTheJob(c: Config, s: State, size: nat)
    requires Init(c, s)
    ensures exists events ::
      var s' := Run(c, s, events);
      IsOwner(s', 1) && IsOwner(s', 2) && !SingleOwner(s')
  {
    hide Init, Run, Reaches, IsClaimable, Owns;
    var slow := ClaimedAndSlow(c, s, size);
    StaleIsClaimable(slow.sh.job, slow.sh.now - c.stallTimeout);
    ThenClaim(c, s, slow, 2, size);
    StampingOwns(size);
    TwoOwners(c, s, Claimed(slow, 2, size));
  }

  lemma ResumableIsClaimable(row: JobRow, cutoff: int)
    requires IsResumable(row.status)
    ensures IsClaimable(row, cutoff)
  {
  }

  lemma StaleIsClaimable(row: JobRow, cutoff: int)
    requires IsStale(row, cutoff)
    ensures IsClaimable(row, cutoff)
  {
  }

  lemma StampingOwns(size: nat)
    ensures Owns(NewWorker(size).At(Stamping))
  {
  }

  lemma TwoOwners(c: Config, s: State, s': State)
    requires Reaches(c, s, s') && IsOwner(s', 1) && IsOwner(s', 2)
    ensures exists events ::
      IsOwner(Run(c, s, events), 1) && IsOwner(Run(c, s, events), 2) && !SingleOwner(Run(c, s, events))
  {
    hide Run, IsOwner;
    var events :| Run(c, s, events) == s';
    assert !SingleOwner(s');
  }

  lemma QueuedRow(c: Config, s: State)
    requires Init(c, s)
    ensures
      var s1 := Step(c, s, WriteQueued);
      && Reaches(c, s, s1) && s1.workers == map[] && s1.sh == WriteStatus(s.sh, Queued)
      && s1.sh.job.status == Queued && !s1.sh.job.cancelRequested
  {
    hide Reaches;
    Start0(c, s);
    Then(c, s, s, WriteQueued);
  }

  // ---- Three workers over a moving table ----------------------------------------------------

  datatype Crew = Crew(one: Option<Worker>, two: Option<Worker>, three: Option<Worker>) {
    function Seat(w: nat): Option<Worker> {
      if w == 1 then one else if w == 2 then two else if w == 3 then three else None
    }

    function With(w: nat, k: Worker): Crew {
      if w == 1 then this.(one := Some(k)) else if w == 2 then this.(two := Some(k)) else this.(three := Some(k))
    }
  }

  predicate Mans(s: State, crew: Crew) {
    forall w: nat :: 1 <= w <= 3 ==>
      (w in s.workers <==> crew.Seat(w).Some?) && (w in s.workers ==> crew.Seat(w) == Some(s.workers[w]))
  }

  /** Some run leads to this database and store, and to these workers. */
  ghost predicate Gets(c: Config, s: State, sh: Shared, crew: Crew) {
    exists s' :: Reaches(c, s, s') && s'.sh == sh && Mans(s', crew)
  }

  lemma GetsRequests(c: Config, s: State, sh: Shared, crew: Crew, w: nat, n: nat, e: Effect)
    requires Gets(c, s, sh, crew) && 1 <= w <= 3 && crew.Seat(w).Some? && Requests(c, sh, crew.Seat(w).value, n) == e
    ensures Gets(c, s, e.sh, crew.With(w, e.k))
  {
    hide Reaches, Requests;
    var s' :| Reaches(c, s, s') && s'.sh == sh && Mans(s', crew);
    ThenRequests(c, s, s', w, n);
    assert Mans(After(s', w, e), crew.With(w, e.k));
  }

  lemma GetsClaim(c: Config, s: State, sh: Shared, crew: Crew, w: nat, size: nat)
    requires Gets(c, s, sh, crew) && 1 <= w <= 3 && crew.Seat(w).None?
    requires IsClaimable(sh.job, sh.now - c.stallTimeout) && !sh.job.cancelRequested
    ensures Gets(c, s, WriteStatus(sh, Running), crew.With(w, NewWorker(size).At(Stamping)))
  {
    hide Reaches;
    var s' :| Reaches(c, s, s') && s'.sh == sh && Mans(s', crew);
    ThenClaim(c, s, s', w, size);
    assert Mans(Claimed(s', w, size), crew.With(w, NewWorker(size).At(Stamping)));
  }

  lemma GetsTable(c: Config, s: State, sh: Shared, crew: Crew, table: Table)
    requires Gets(c, s, sh, crew)
    ensures Gets(c, s, sh.(table := table), crew)
  {
    hide Reaches;
    var s' :| Reaches(c, s, s') && s'.sh == sh && Mans(s', crew);
    Then(c, s, s', WriteTable(table));
    assert Mans(Step(c, s', WriteTable(table)), crew);
  }

  lemma GetsOlder(c: Config, s: State, sh: Shared, crew: Crew, ticks: nat)
    requires Gets(c, s, sh, crew)
    ensures Gets(c, s, sh.(now := sh.now + ticks), crew)
  {
    hide Reaches, Run;
    var s' :| Reaches(c, s, s') && s'.sh == sh && Mans(s', crew);
    Wait(c, s, s', ticks);
    assert Mans(At(s', sh.now + ticks), crew);
  }

  // ---- Requests by phase -------------------------------------------------------------------

  lemma EnterRequests(c: Config, sh: Shared, size: nat)
    requires LoadResume(Log(sh)) == Success(Position(Log(sh))) && ProgressMatches(sh.job, Position(Log(sh)))
    ensures Requests(c, sh, NewWorker(size).At(Stamping), 3)
      == Effect(WriteJob(sh, StampStart(sh.job, sh.now)), EnterLoop(NewWorker(size), Position(Log(sh))))
  {
    hide ActBatch, ActAssemble, ActVerify, ActClose, LoadResume, Ordered, Position, Requests;
    var k, sh' := NewWorker(size), WriteJob(sh, StampStart(sh.job, sh.now));
    OneRequest(c, sh, k.At(Stamping));
    OneRequest(c, sh', k.At(Loading));
    OneRequest(c, sh', k.At(Reconciling(Position(Log(sh)))));
    RequestsInTwo(c, sh, k.At(Stamping), 1, 2);
    RequestsInTwo(c, sh', k.At(Loading), 1, 1);
  }

  lemma FetchRequests(c: Config, sh: Shared, k: Worker, rows: seq<Row>)
    requires k.pc.LoopHead? && k.count < c.limit && !sh.job.cancelRequested && rows != []
    requires rows == FetchRecordBatch(sh.table, k.cursor, c.snapshotMaxId, BatchLimit(c, k))
    ensures Requests(c, sh, k, 2) == Effect(sh, k.At(Putting(rows)))
  {
    hide ActClaim, ActResume, ActAssemble, ActVerify, ActClose, FetchRecordBatch, Requests;
    OneRequest(c, sh, k);
    OneRequest(c, sh, k.At(Fetching));
    RequestsInTwo(c, sh, k, 1, 1);
  }

  lemma PutRequest(c: Config, sh: Shared, k: Worker)
    requires k.pc.Putting?
    ensures Requests(c, sh, k, 1)
      == Effect(PutChunk(c, sh, k.batch, SerializeChunk(k.pc.rows)), k.(pc := Confirming(k.pc.rows), unsettled := true))
  {
    hide ActClaim, ActResume, ActAssemble, ActVerify, ActClose, PutChunk, SerializeChunk, Requests, FetchRecordBatch;
    OneRequest(c, sh, k);
  }

  lemma ConfirmRequests(c: Config, sh: Shared, k: Worker)
    requires k.pc.Confirming? && k.pc.rows != [] && k.batch !in sh.log
    requires Chunk(c, sh, k.batch) == Some(SerializeChunk(k.pc.rows))
    ensures Requests(c, sh, k, 2) == Effect(Commit(sh, k, k.pc.rows), AfterCommit(k, k.pc.rows))
  {
    hide ActClaim, ActResume, ActAssemble, ActVerify, ActClose, FetchRecordBatch, Requests, Commit, AfterCommit;
    hide Chunk, SerializeChunk, PutChunk;
    OneRequest(c, sh, k);
    OneRequest(c, sh, k.At(Committing(k.pc.rows)));
    RequestsInTwo(c, sh, k, 1, 1);
    CommitIgnoresPlace(sh, k, k.At(Committing(k.pc.rows)), k.pc.rows);
  }

  lemma PromoteRequests(c: Config, sh: Shared, k: Worker)
    requires k.pc.LoopHead? && k.count == c.limit
    requires LoadResume(Log(sh)) == Success(Position(Log(sh))) && Total(Log(sh)) == c.limit
    ensures Requests(c, sh, k, 3) == Effect(WriteStatus(sh, Verifying), k.At(Assembling(|Log(sh)|, 1, CsvHeader())))
  {
    hide ActClaim, ActResume, ActVerify, ActClose, FetchRecordBatch, Requests, LoadResume, Ordered, CsvHeader, Total;
    hide Chunk, SerializeChunk, PutChunk, LastId;
    OneRequest(c, sh, k);
    OneRequest(c, sh, k.At(CrossChecking));
    OneRequest(c, sh, k.At(Promoting(|Log(sh)|)));
    RequestsInTwo(c, sh, k, 1, 2);
    RequestsInTwo(c, sh, k.At(CrossChecking), 1, 1);
  }

  lemma ReadRequest(c: Config, sh: Shared, k: Worker, chunk: string)
    requires k.pc.Assembling? && k.pc.next <= k.pc.batches && Chunk(c, sh, k.pc.next) == Some(chunk)
    ensures Requests(c, sh, k, 1) == Effect(sh, k.At(Assembling(k.pc.batches, k.pc.next + 1, k.pc.written + chunk)))
  {
    hide ActClaim, ActResume, ActBatch, ActVerify, ActClose, Chunk, Requests, LoadResume, Ordered, CsvHeader;
    OneRequest(c, sh, k);
  }

  lemma PublishRequest(c: Config, sh: Shared, k: Worker)
    requires k.pc.Assembling? && k.pc.next > k.pc.batches
    ensures Requests(c, sh, k, 1) == Effect(Publish(c, sh, k.pc.written), k.At(Sizing))
  {
    hide ActClaim, ActResume, ActBatch, ActVerify, ActClose, Chunk, Requests, LoadResume, Ordered, CsvHeader, FinalKey;
    OneRequest(c, sh, k);
  }

  lemma OneVerify(c: Config, sh: Shared, k: Worker)
    requires IsVerifying(k.pc)
    ensures Requests(c, sh, k, 1) == ActVerify(c, sh, k)
  {
    hide ActClaim, ActResume, ActBatch, ActAssemble, ActVerify, ActClose, Requests;
    OneRequest(c, sh, k);
  }

  lemma HeadRequests(c: Config, sh: Shared, k: Worker, file: string)
    requires k.pc.Sizing? && Final(c, sh) == Some(file) && file != ""
    ensures Requests(c, sh, k, 2) == Effect(sh, k.At(Auditing(|file|)))
  {
    hide Act, Requests, Final, AuditBody, IsReadable;
    OneVerify(c, sh, k);
    OneVerify(c, sh, k.At(Heading));
    RequestsInTwo(c, sh, k, 1, 1);
  }

  lemma ReportRequests(c: Config, sh: Shared, k: Worker, file: string)
    requires k.pc == Auditing(|file|) && Final(c, sh) == Some(file)
    requires AuditBody(c, file, |file|).result.Passed() && IsReadable(file)
    ensures Requests(c, sh, k, 2) == Effect(AddReport(sh, AuditBody(c, file, |file|)), k.At(Completing))
  {
    hide Act, Requests, Final, AuditBody, IsReadable;
    OneVerify(c, sh, k);
    OneVerify(c, sh, k.At(Recording(AuditBody(c, file, |file|))));
    RequestsInTwo(c, sh, k, 1, 1);
  }

  lemma VerifyRequests(c: Config, sh: Shared, k: Worker, file: string)
    requires k.pc.Sizing? && Final(c, sh) == Some(file) && file != ""
    requires AuditBody(c, file, |file|).result.Passed() && IsReadable(file)
    ensures Requests(c, sh, k, 4) == Effect(AddReport(sh, AuditBody(c, file, |file|)), k.At(Completing))
  {
    hide Requests, Final, AuditBody, IsReadable;
    HeadRequests(c, sh, k, file);
    ReportRequests(c, sh, k.At(Auditing(|file|)), file);
    RequestsInTwo(c, sh, k, 2, 2);
  }

  lemma CompleteRequest(c: Config, sh: Shared, k: Worker)
    requires k.pc.Completing?
    ensures Requests(c, sh, k, 1) == Effect(WriteJob(sh, Complete(sh.job, FinalKey(c.jobId), sh.now)), k.At(Cleaning))
  {
    hide ActClaim, ActResume, ActBatch, ActAssemble, ActVerify, Requests, FinalKey, DropChunks;
    OneRequest(c, sh, k);
  }

  // ---- The rows of the race ------------------------------------------------------------------

  /** Row 2 alone is visible, then both. */
  function Late(r: Record): Table {
    map[2 := r]
  }

  function Both(r: Record): Table {
    map[1 := r, 2 := r]
  }

  function RowOf(r: Record, id: nat): Row {
    NormaliseRecord(id, r)
  }

  lemma ListedIs(s: seq<nat>, ids: set<nat>)
    requires Lists(s, ids)
    ensures Ascending(ids) == s
  {
    ListingUnique(s, Ascending(ids), ids);
  }

  lemma LatePage(r: Record, snapshotMaxId: nat)
    requires snapshotMaxId >= 2
    ensures FetchRecordBatch(Late(r), 0, snapshotMaxId, 2) == [RowOf(r, 2)]
  {
    var t := Late(r);
    assert Eligible(t, 0, snapshotMaxId) == {2};
    ListedIs([2], {2});
    assert PageIds(t, 0, snapshotMaxId, 2) == [2];
  }

  lemma BothPage(r: Record, snapshotMaxId: nat)
    requires snapshotMaxId >= 2
    ensures FetchRecordBatch(Both(r), 0, snapshotMaxId, 2) == [RowOf(r, 1), RowOf(r, 2)]
  {
    var t := Both(r);
    assert Eligible(t, 0, snapshotMaxId) == {1, 2};
    ListedIs([1, 2], {1, 2});
    assert PageIds(t, 0, snapshotMaxId, 2) == [1, 2];
  }

  lemma LastRowId(r: Record)
    ensures RowId(RowOf(r, 2)) == 2
  {
    Decimal.ValueOfPrint(2);
  }

  // ---- The run ---------------------------------------------------------------------------------

  /** The job has not got anywhere yet. */
  predicate IsUntouched(sh: Shared) {
    && sh.log == map[] && sh.reports == [] && !sh.job.cancelRequested
    && sh.job.lastExportedId == None && sh.job.exportedRowCount == 0
  }

  lemma EmptyLog(sh: Shared)
    requires sh.log == map[]
    ensures Log(sh) == [] && LoadResume(Log(sh)) == Success(Position(Log(sh)))
    ensures Position(Log(sh)) == ResumeState(1, 0, 0, 0)
  {
    assert |Log(sh)| == 0;
  }

  /** The one batch that was checkpointed. */
  predicate IsWritten(sh: Shared) {
    sh.log == map[1 := Entry(2, 2)]
  }

  lemma OneEntry(sh: Shared)
    requires IsWritten(sh)
    ensures Log(sh) == [Checkpoint(1, 2, 2)] && Total(Log(sh)) == 2
    ensures LoadResume(Log(sh)) == Success(Position(Log(sh))) && Position(Log(sh)) == ResumeState(2, 2, 2, 1)
  {
    var none: CheckpointLog := map[];
    assert |Ordered(none)| == 0;
    AppendEntry(none, Entry(2, 2));
    assert sh.log == none[1 := Entry(2, 2)];
    var cps := Log(sh);
    assert cps[..0] == [];
    TotalStep(cps, 1);
    assert cps[..1] == cps;
    LoadResumeIff(cps);
  }

  function Holding(size: nat, rows: seq<Row>): Worker {
    Worker(Putting(rows), size, 0, 0, 1, false)
  }

  /** A worker picks up the untouched job and fetches its first page. */
  lemma PicksUp(c: Config, s: State, sh: Shared, crew: Crew, w: nat, rows: seq<Row>) returns (sh': Shared)
    requires c.limit == 2 && Gets(c, s, sh, crew) && 1 <= w <= 3 && crew.Seat(w).None?
    requires IsClaimable(sh.job, sh.now - c.stallTimeout) && IsUntouched(sh)
    requires rows != [] && rows == FetchRecordBatch(sh.table, 0, c.snapshotMaxId, 2)
    ensures Gets(c, s, sh', crew.With(w, Holding(2, rows)))
    ensures IsUntouched(sh') && sh'.job.status == Running && sh'.job.updatedAt == sh'.now && sh'.table == sh.table
  {
    hide Gets, FetchRecordBatch, Requests, Position, Ordered, LoadResume, IsClaimable, Mans;
    GetsClaim(c, s, sh, crew, w, 2);
    var sh1 := WriteStatus(sh, Running);
    EmptyLog(sh1);
    EnterRequests(c, sh1, 2);
    sh' := WriteJob(sh1, StampStart(sh1.job, sh1.now));
    var k := EnterLoop(NewWorker(2), Position(Log(sh1)));
    GetsRequests(c, s, sh1, crew.With(w, NewWorker(2).At(Stamping)), w, 3, Effect(sh', k));
    FetchRequests(c, sh', k, rows);
    GetsRequests(c, s, sh', crew.With(w, k), w, 2, Effect(sh', k.At(Putting(rows))));
    assert crew.With(w, NewWorker(2).At(Stamping)).With(w, k).With(w, k.At(Putting(rows)))
      == crew.With(w, Holding(2, rows));
  }

  /** The batch is checkpointed and its chunk holds `rows`. */
  predicate IsStored(c: Config, sh: Shared, rows: seq<Row>) {
    && IsWritten(sh) && sh.reports == [] && !sh.job.cancelRequested
    && sh.job.lastExportedId == Some(2) && sh.job.exportedRowCount == 2
    && Chunk(c, sh, 1) == Some(SerializeChunk(rows))
  }

  predicate IsThrough(k: Worker) {
    k.pc.LoopHead? && k.count == 2
  }

  lemma CommitStores(c: Config, sh: Shared, k: Worker, rows: seq<Row>)
    requires IsUntouched(sh) && Chunk(c, sh, 1) == Some(SerializeChunk(rows))
    requires |rows| == 2 && RowId(rows[1]) == 2 && k.batch == 1 && k.count == 0
    ensures IsStored(c, Commit(sh, k, rows), rows) && IsThrough(AfterCommit(k, rows))
    ensures Commit(sh, k, rows).job.status == sh.job.status && Commit(sh, k, rows).job.updatedAt == sh.now
    ensures Commit(sh, k, rows).now == sh.now
  {
    hide SerializeChunk;
  }

  /** A worker that holds the whole page uploads and checkpoints it. */
  lemma WritesPage(c: Config, s: State, sh: Shared, crew: Crew, w: nat, rows: seq<Row>) returns (sh': Shared, k: Worker)
    requires Gets(c, s, sh, crew) && 1 <= w <= 3 && crew.Seat(w) == Some(Holding(2, rows)) && IsUntouched(sh)
    requires |rows| == 2 && RowId(rows[1]) == 2
    ensures Gets(c, s, sh', crew.With(w, k)) && IsStored(c, sh', rows) && IsThrough(k)
    ensures sh'.job.status == sh.job.status && sh'.job.updatedAt == sh'.now
  {
    hide Gets, Requests, SerializeChunk, Chunk, IsStored, Mans;
    var body := SerializeChunk(rows);
    PutRequest(c, sh, Holding(2, rows));
    var sh1 := PutChunk(c, sh, 1, body);
    var k1 := Holding(2, rows).(pc := Confirming(rows), unsettled := true);
    GetsRequests(c, s, sh, crew, w, 1, Effect(sh1, k1));
    PutIsThere(c, sh, 1, body);
    ConfirmRequests(c, sh1, k1);
    CommitStores(c, sh1, k1, rows);
    sh', k := Commit(sh1, k1, rows), AfterCommit(k1, rows);
    GetsRequests(c, s, sh1, crew.With(w, k1), w, 2, Effect(sh', k));
    assert crew.With(w, k1).With(w, k) == crew.With(w, k);
  }

  lemma PutIsThere(c: Config, sh: Shared, n: nat, body: string)
    ensures Chunk(c, PutChunk(c, sh, n, body), n) == Some(body)
    ensures PutChunk(c, sh, n, body) == sh.(objects := PutChunk(c, sh, n, body).objects, puts := sh.puts + 1)
  {
  }

  /** Another worker takes the job over and finds nothing left to fetch. */
  lemma TakesOver(c: Config, s: State, sh: Shared, crew: Crew, w: nat, rows: seq<Row>) returns (sh': Shared, k: Worker)
    requires Gets(c, s, sh, crew) && 1 <= w <= 3 && crew.Seat(w).None? && IsStored(c, sh, rows)
    requires IsClaimable(sh.job, sh.now - c.stallTimeout)
    ensures Gets(c, s, sh', crew.With(w, k)) && IsStored(c, sh', rows) && IsThrough(k)
  {
    hide Gets, Requests, Position, Ordered, LoadResume, IsClaimable, Mans, SerializeChunk;
    GetsClaim(c, s, sh, crew, w, 2);
    var sh1 := WriteStatus(sh, Running);
    OneEntry(sh1);
    EnterRequests(c, sh1, 2);
    sh' := WriteJob(sh1, StampStart(sh1.job, sh1.now));
    k := EnterLoop(NewWorker(2), Position(Log(sh1)));
    GetsRequests(c, s, sh1, crew.With(w, NewWorker(2).At(Stamping)), w, 3, Effect(sh', k));
    assert crew.With(w, NewWorker(2).At(Stamping)).With(w, k) == crew.With(w, k);
  }

  function Assembler(k: Worker, next: nat, written: string): Worker {
    k.At(Assembling(1, next, written))
  }

  lemma Promotes(c: Config, s: State, sh: Shared, crew: Crew, w: nat, k: Worker, rows: seq<Row>) returns (sh': Shared)
    requires c.limit == 2 && Gets(c, s, sh, crew) && 1 <= w <= 3 && crew.Seat(w) == Some(k) && IsThrough(k)
    requires IsStored(c, sh, rows)
    ensures Gets(c, s, sh', crew.With(w, Assembler(k, 1, CsvHeader()))) && IsStored(c, sh', rows)
  {
    hide Gets, Requests, LoadResume, Ordered, Total, CsvHeader, SerializeChunk, Mans, Position;
    OneEntry(sh);
    PromoteRequests(c, sh, k);
    sh' := WriteStatus(sh, Verifying);
    GetsRequests(c, s, sh, crew, w, 3, Effect(sh', Assembler(k, 1, CsvHeader())));
  }

  lemma Reads(c: Config, s: State, sh: Shared, crew: Crew, w: nat, k: Worker, rows: seq<Row>)
    requires Gets(c, s, sh, crew) && 1 <= w <= 3 && crew.Seat(w) == Some(Assembler(k, 1, CsvHeader()))
    requires Chunk(c, sh, 1) == Some(SerializeChunk(rows))
    ensures Gets(c, s, sh, crew.With(w, Assembler(k, 2, CsvFile(rows))))
  {
    hide Gets, Requests, CsvHeader, SerializeChunk, Mans, CsvFile, Chunk;
    FileParts(rows);
    ReadRequest(c, sh, Assembler(k, 1, CsvHeader()), SerializeChunk(rows));
    GetsRequests(c, s, sh, crew, w, 1, Effect(sh, Assembler(k, 2, CsvFile(rows))));
  }

  lemma Publishes(c: Config, s: State, sh: Shared, crew: Crew, w: nat, k: Worker, file: string)
    requires Gets(c, s, sh, crew) && 1 <= w <= 3 && crew.Seat(w) == Some(Assembler(k, 2, file))
    ensures Gets(c, s, Publish(c, sh, file), crew.With(w, k.At(Sizing)))
    ensures Final(c, Publish(c, sh, file)) == Some(file)
  {
    hide Gets, Requests, Mans;
    PublishRequest(c, sh, Assembler(k, 2, file));
    GetsRequests(c, s, sh, crew, w, 1, Effect(Publish(c, sh, file), k.At(Sizing)));
  }

  /** The job is complete and its latest report passed `file`. */
  predicate IsPassed(c: Config, sh: Shared, file: string) {
    && sh.job.status == Completed && sh.job.fileKey == Some(FinalKey(c.jobId))
    && sh.reports == [AuditBody(c, file, |file|)] && sh.reports[0].result.Passed()
  }

  lemma Completes(c: Config, s: State, sh: Shared, crew: Crew, w: nat, k: Worker, file: string) returns (sh': Shared)
    requires Gets(c, s, sh, crew) && 1 <= w <= 3 && crew.Seat(w) == Some(k.At(Sizing)) && sh.reports == []
    requires Final(c, sh) == Some(file) && file != ""
    requires AuditBody(c, file, |file|).result.Passed() && IsReadable(file)
    ensures Gets(c, s, sh', crew.With(w, k.At(Cleaning))) && IsPassed(c, sh', file)
  {
    hide Gets, Requests, Mans, AuditBody, Final, FinalKey, IsReadable;
    VerifyRequests(c, sh, k.At(Sizing), file);
    var sh1 := AddReport(sh, AuditBody(c, file, |file|));
    GetsRequests(c, s, sh, crew, w, 4, Effect(sh1, k.At(Completing)));
    CompleteRequest(c, sh1, k.At(Completing));
    sh' := WriteJob(sh1, Complete(sh1.job, FinalKey(c.jobId), sh1.now));
    GetsRequests(c, s, sh1, crew.With(w, k.At(Completing)), w, 1, Effect(sh', k.At(Cleaning)));
    assert crew.With(w, k.At(Completing)).With(w, k.At(Cleaning)) == crew.With(w, k.At(Cleaning));
  }

  /** Two workers hold a page of the same batch: the first saw row 2 alone, the second both rows. */
  lemma TwoHoldPages(c: Config, s: State, r: Record) returns (sh: Shared, crew: Crew)
    requires c.limit == 2 && c.snapshotMaxId >= 2 && Init(c, s)
    ensures crew == Crew(Some(Holding(2, [RowOf(r, 2)])), Some(Holding(2, [RowOf(r, 1), RowOf(r, 2)])), None)
    ensures Gets(c, s, sh, crew) && IsUntouched(sh) && sh.job.status == Running && sh.job.updatedAt == sh.now
  {
    hide Gets, FetchRecordBatch, NormaliseRecord, Init;
    var nobody := Crew(None, None, None);
    var sh0 := NobodyYet(c, s, nobody);
    GetsTable(c, s, sh0, nobody, Late(r));
    LatePage(r, c.snapshotMaxId);
    var sh1 := PicksUp(c, s, sh0.(table := Late(r)), nobody, 1, [RowOf(r, 2)]);
    crew := nobody.With(1, Holding(2, [RowOf(r, 2)]));
    GetsTable(c, s, sh1, crew, Both(r));
    var sh2 := sh1.(table := Both(r));
    GetsOlder(c, s, sh2, crew, c.stallTimeout + 1);
    BothPage(r, c.snapshotMaxId);
    sh := PicksUp(c, s, sh2.(now := sh2.now + c.stallTimeout + 1), crew, 2, [RowOf(r, 1), RowOf(r, 2)]);
    crew := crew.With(2, Holding(2, [RowOf(r, 1), RowOf(r, 2)]));
  }

  lemma NobodyYet(c: Config, s: State, crew: Crew) returns (sh: Shared)
    requires Init(c, s) && crew == Crew(None, None, None)
    ensures Gets(c, s, sh, crew) && IsUntouched(sh) && IsClaimable(sh.job, sh.now - c.stallTimeout)
  {
    hide Reaches, IsClaimable, Step;
    QueuedRow(c, s);
    sh := Step(c, s, WriteQueued).sh;
    ResumableIsClaimable(sh.job, sh.now - c.stallTimeout);
    assert Mans(Step(c, s, WriteQueued), crew);
  }

  /** The second worker checkpoints its page, a third takes over, and both start to assemble. */
  lemma TwoAssemble(c: Config, s: State, r: Record) returns (sh: Shared, crew: Crew, b: Worker, d: Worker)
    requires c.limit == 2 && c.snapshotMaxId >= 2 && Init(c, s)
    ensures
      crew == Crew(
        Some(Holding(2, [RowOf(r, 2)])), Some(Assembler(b, 1, CsvHeader())), Some(Assembler(d, 1, CsvHeader())))
    ensures Gets(c, s, sh, crew) && IsStored(c, sh, [RowOf(r, 1), RowOf(r, 2)])
  {
    hide Gets, Init, NormaliseRecord, CsvHeader, SerializeChunk, Chunk;
    var rows := [RowOf(r, 1), RowOf(r, 2)];
    LastRowId(r);
    var sh1, two := TwoHoldPages(c, s, r);
    var sh2, b2 := WritesPage(c, s, sh1, two, 2, rows);
    var sh3 := sh2.(now := sh2.now + c.stallTimeout + 1);
    GetsOlder(c, s, sh2, two.With(2, b2), c.stallTimeout + 1);
    SameStored(c, sh2, sh3, rows);
    var sh4, d2 := TakesOver(c, s, sh3, two.With(2, b2), 3, rows);
    var three := two.With(2, b2).With(3, d2);
    var sh5 := Promotes(c, s, sh4, three, 2, b2, rows);
    sh := Promotes(c, s, sh5, three.With(2, Assembler(b2, 1, CsvHeader())), 3, d2, rows);
    crew := three.With(2, Assembler(b2, 1, CsvHeader())).With(3, Assembler(d2, 1, CsvHeader()));
    b, d := b2, d2;
  }

  lemma SameStored(c: Config, sh: Shared, sh': Shared, rows: seq<Row>)
    requires IsStored(c, sh, rows) && sh' == sh.(now := sh'.now)
    ensures IsStored(c, sh', rows)
  {
    hide SerializeChunk;
  }

  /** Between their reads of the chunk the first worker's late upload replaces it. */
  lemma TwoTexts(c: Config, s: State, r: Record) returns (sh: Shared, crew: Crew, b: Worker, d: Worker)
    requires c.limit == 2 && c.snapshotMaxId >= 2 && Init(c, s)
    ensures Gets(c, s, sh, crew) && sh.reports == []
    ensures crew.two == Some(Assembler(b, 2, CsvFile([RowOf(r, 1), RowOf(r, 2)])))
    ensures crew.three == Some(Assembler(d, 2, CsvFile([RowOf(r, 2)])))
  {
    hide Gets, Init, NormaliseRecord, CsvHeader, SerializeChunk, CsvFile, Chunk, Requests;
    var rows, late := [RowOf(r, 1), RowOf(r, 2)], [RowOf(r, 2)];
    var sh1, crew1, b1, d1 := TwoAssemble(c, s, r);
    Reads(c, s, sh1, crew1, 2, b1, rows);
    var crew2 := crew1.With(2, Assembler(b1, 2, CsvFile(rows)));
    PutRequest(c, sh1, Holding(2, late));
    var a := Holding(2, late).(pc := Confirming(late), unsettled := true);
    var sh2 := PutChunk(c, sh1, 1, SerializeChunk(late));
    GetsRequests(c, s, sh1, crew2, 1, 1, Effect(sh2, a));
    PutIsThere(c, sh1, 1, SerializeChunk(late));
    Reads(c, s, sh2, crew2.With(1, a), 3, d1, late);
    sh, crew, b, d := sh2, crew2.With(1, a).With(3, Assembler(d1, 2, CsvFile(late))), b1, d1;
  }

  lemma PublishKeepsPass(c: Config, sh: Shared, file: string, other: string)
    requires IsPassed(c, sh, file)
    ensures IsPassed(c, Publish(c, sh, other), file)
    ensures GetExportDownload(Publish(c, sh, other).job, Publish(c, sh, other).reports).Success?
  {
    hide AuditBody, IsReadable;
  }

  /** The row of a file of one. */
  lemma OneRowFile(row: Row)
    ensures CsvParser.Parse(CsvFile([row])) == [COLUMNS, row.Fields()]
  {
    hide CsvParser.Parse, CsvFile, COLUMNS;
    CsvParser.ParseOfFile([row]);
    assert CsvParser.AllFields([row]) == [row.Fields()];
  }

  lemma BothRowsPass(c: Config, r: Record)
    requires c.limit == 2 && c.snapshotMaxId >= 2 && Delivery.ReadsDecimals(c.readId)
    ensures
      var file := CsvFile([RowOf(r, 1), RowOf(r, 2)]);
      file != "" && AuditBody(c, file, |file|).result.Passed() && IsReadable(file)
  {
    hide CsvFile, AuditBody, IsReadable, NormaliseRecord, FetchRecordBatch;
    BothPage(r, c.snapshotMaxId);
    PageIsOrdered(Both(r), 0, c.snapshotMaxId, 2);
    Delivery.OrderedFilePasses(c, [RowOf(r, 1), RowOf(r, 2)]);
    Delivery.FileIsNotEmpty([RowOf(r, 1), RowOf(r, 2)]);
  }

  /** With workers that overlap and a row that becomes visible late, a download link can be handed out for a file that
      is not the audited one: two rows were asked for and verified, and the stored file has one. */
  lemma OverlapCanSpoilTheFile(c: Config, s: State, r: Record)
    requires c.Valid() && c.limit == 2 && c.snapshotMaxId >= 2 && Delivery.ReadsDecimals(c.readId) && Init(c, s)
    ensures exists events ::
      var sh := Run(c, s, events).sh;
      && GetExportDownload(sh.job, sh.reports).Success?
      && Final(c, sh).Some? && CsvParser.Parse(Final(c, sh).value) == [COLUMNS, RowOf(r, 2).Fields()]
  {
    hide Init, Run, NormaliseRecord, CsvFile, AuditBody, Final, FinalKey, COLUMNS, GetExportDownload;
    hide CsvParser.Parse, Delivery.ReadsDecimals, Gets, IsReadable;
    var good, bad := CsvFile([RowOf(r, 1), RowOf(r, 2)]), CsvFile([RowOf(r, 2)]);
    BothRowsPass(c, r);
    var sh1, crew, b, d := TwoTexts(c, s, r);
    Publishes(c, s, sh1, crew, 2, b, good);
    var crew1 := crew.With(2, b.At(Sizing));
    PublishKeepsReports(c, sh1, good);
    var sh2 := Completes(c, s, Publish(c, sh1, good), crew1, 2, b, good);
    Publishes(c, s, sh2, crew1.With(2, b.At(Cleaning)), 3, d, bad);
    PublishKeepsPass(c, sh2, good, bad);
    OneRowFile(RowOf(r, 2));
    GotRun(c, s, Publish(c, sh2, bad), crew1.With(2, b.At(Cleaning)).With(3, d.At(Sizing)));
  }

  lemma PublishKeepsReports(c: Config, sh: Shared, file: string)
    ensures Publish(c, sh, file).reports == sh.reports
  {
  }

  lemma GotRun(c: Config, s: State, sh: Shared, crew: Crew)
    requires Gets(c, s, sh, crew)
    ensures exists events :: Run(c, s, events).sh == sh
  {
    hide Run, Mans;
    var s' :| Reaches(c, s, s') && s'.sh == sh;
    var events :| Run(c, s, events) == s';
  }
}
