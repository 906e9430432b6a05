/** The export protocol of one job as a step machine: any number of workers running
    server/src/services/exportRunner.service.ts, the API, the sweeper, the clock, and everybody else who writes
    to the records table and the object store. Every awaited request is one atomic step. */
module Protocol {
  import opened Common
  import opened Csv
  import opened RecordSource
  import opened Storage
  import opened Resume
  import opened Verification
  import opened Jobs
  import CsvParser

  /** What never changes about a job and its surroundings. */
  datatype Config = Config(
    jobId: string,
    snapshotMaxId: nat,
    limit: nat,
    stallTimeout: nat,
    readId: IdReader)
  {
    predicate Valid() {
      IsJobId(jobId) && limit > 0
    }
  }

  /** The database and the object store. `puts` counts the chunk uploads served. */
  datatype Shared = Shared(
    now: int,
    table: Table,
    job: JobRow,
    log: CheckpointLog,
    reports: seq<Report>,
    objects: Objects,
    puts: nat)

  datatype Reason = Exhausted | WrongCount | LogMismatch | VerificationFailed

  datatype Outcome = RanToCompletion | WasCancelled | GaveUp(reason: Reason) | Skipped | Threw | Crashed

  /** Where a worker stands: the request it is about to make. */
  datatype Pc =
    | Reading                                                   // read the job row
    | CancellingEarly                                           // cancelled before the start
    | Admitted                                                  // compute the stale cutoff
    | Claiming(cutoff: int)                                     // the conditional update
    | Stamping                                                  // first start time
    | Loading                                                   // read the checkpoint log
    | Reconciling(state: ResumeState)                           // compare the row's progress
    | Correcting(state: ResumeState)                            // overwrite the row's progress
    | LoopHead                                                  // loop guard, then the cancel flag
    | Cancelling | Discarding                                   // cancelled inside the loop
    | Fetching
    | Putting(rows: seq<Row>)
    | Confirming(rows: seq<Row>)
    | Committing(rows: seq<Row>)
    | CrossChecking                                             // read the log again
    | Promoting(batches: nat)                                   // set VERIFYING
    | Assembling(batches: nat, next: nat, written: string)      // stream one chunk, or publish
    | Sizing | Heading | Auditing(size: nat)                    // sizes and body of the published file
    | Recording(report: Report)
    | NotingKey
    | Completing | Cleaning
    | Failing(reason: Reason)
    | Catching                                                  // the catch block
    | Ended(outcome: Outcome)

  /** A run of `runExportJob`. `unsettled` remembers that its last upload was not checkpointed. */
  datatype Worker = Worker(pc: Pc, batchSize: nat, cursor: nat, count: nat, batch: nat, unsettled: bool) {
    function At(pc: Pc): Worker {
      this.(pc := pc)
    }
  }

  datatype Effect = Effect(sh: Shared, k: Worker)

  function NewWorker(batchSize: nat): Worker {
    Worker(Reading, batchSize, 0, 0, 1, false)
  }

  function OwnKey(c: Config, n: nat): string {
    ChunkKey(c.jobId, n)
  }

  function Chunk(c: Config, sh: Shared, n: nat): Option<string> {
    Lookup(sh.objects, OwnKey(c, n))
  }

  function Final(c: Config, sh: Shared): Option<string> {
    Lookup(sh.objects, FinalKey(c.jobId))
  }

  function WriteJob(sh: Shared, row: JobRow): Shared {
    sh.(job := row)
  }

  function AddReport(sh: Shared, report: Report): Shared {
    sh.(reports := sh.reports + [report])
  }

  function WriteStatus(sh: Shared, status: Status): Shared {
    WriteJob(sh, SetStatus(sh.job, status, sh.now))
  }

  // ---- One request of a worker -------------------------------------------------

  function EnterLoop(k: Worker, state: ResumeState): Worker {
    k.(pc := LoopHead, cursor := state.lastExportedId, count := state.rowsWritten, batch := state.nextBatchNumber)
  }

  /** From pickup to the claim. */
  function ActClaim(c: Config, sh: Shared, k: Worker): Effect {
    match k.pc
    case Reading =>
      if IsTerminal(sh.job.status) then Effect(sh, k.At(Ended(Skipped)))
      else if sh.job.cancelRequested then Effect(sh, k.At(CancellingEarly))
      else Effect(sh, k.At(Admitted))
    case CancellingEarly => Effect(WriteStatus(sh, Cancelled), k.At(Ended(WasCancelled)))
    case Admitted => Effect(sh, k.At(Claiming(sh.now - c.stallTimeout)))
    case Claiming(cutoff) =>
      if IsClaimable(sh.job, cutoff) then Effect(WriteStatus(sh, Running), k.At(Stamping))
      else Effect(sh, k.At(Ended(Skipped)))
    case Stamping => Effect(WriteJob(sh, StampStart(sh.job, sh.now)), k.At(Loading))
    case _ => Effect(sh, k)
  }

  /** From the log to the loop. */
  function ActResume(sh: Shared, k: Worker): Effect {
    match k.pc
    case Loading =>
      var loaded := LoadResume(Ordered(sh.log));
      if loaded.Failure? then Effect(sh, k.At(Catching)) else Effect(sh, k.At(Reconciling(loaded.value)))
    case Reconciling(state) =>
      if ProgressMatches(sh.job, state) then Effect(sh, EnterLoop(k, state)) else Effect(sh, k.At(Correcting(state)))
    case Correcting(state) => Effect(WriteJob(sh, CorrectProgress(sh.job, state, sh.now)), EnterLoop(k, state))
    case _ => Effect(sh, k)
  }

  function PutChunk(c: Config, sh: Shared, n: nat, body: string): Shared {
    sh.(objects := sh.objects[OwnKey(c, n) := body], puts := sh.puts + 1)
  }

  function DropChunks(c: Config, sh: Shared): Shared {
    sh.(objects := WithoutChunks(sh.objects, c.jobId))
  }

  function Publish(c: Config, sh: Shared, file: string): Shared {
    sh.(objects := sh.objects[FinalKey(c.jobId) := file])
  }

  /** One page of the deletion. */
  function DropPage(c: Config, sh: Shared, keys: set<string>): Shared {
    sh.(objects := map key | key in sh.objects && !(key in keys && IsChunkOf(c.jobId, key)) :: sh.objects[key])
  }

  function BatchEntry(rows: seq<Row>): Entry
    requires rows != []
  {
    Entry(RowId(rows[|rows| - 1]), |rows|)
  }

  /** The transaction: the checkpoint and the row's progress together. */
  function Commit(sh: Shared, k: Worker, rows: seq<Row>): Shared
    requires rows != []
  {
    var e := BatchEntry(rows);
    sh.(log := sh.log[k.batch := e], job := SetProgress(sh.job, Some(e.lastRecordId), k.count + e.rowsWritten, sh.now))
  }

  function AfterCommit(k: Worker, rows: seq<Row>): Worker
    requires rows != []
  {
    k.(pc := LoopHead, cursor := BatchEntry(rows).lastRecordId, count := k.count + |rows|, batch := k.batch + 1,
       unsettled := false)
  }

  /** How many rows a batch of at most `size` may hold after `count` rows. */
  function Room(c: Config, size: nat, count: nat): nat {
    if count >= c.limit then 0 else if size < c.limit - count then size else c.limit - count
  }

  lemma CommitIgnoresPlace(sh: Shared, k: Worker, k': Worker, rows: seq<Row>)
    requires rows != [] && k' == k.(pc := k'.pc, unsettled := k'.unsettled)
    ensures Commit(sh, k', rows) == Commit(sh, k, rows) && AfterCommit(k', rows) == AfterCommit(k, rows)
  {
  }

  function BatchLimit(c: Config, k: Worker): nat {
    Room(c, k.batchSize, k.count)
  }

  /** The batch loop. */
  function ActBatch(c: Config, sh: Shared, k: Worker): Effect {
    match k.pc
    case LoopHead =>
      if k.count < c.limit then Effect(sh, k.At(if sh.job.cancelRequested then Cancelling else Fetching))
      else Effect(sh, k.At(if k.count != c.limit then Failing(WrongCount) else CrossChecking))
    case Fetching =>
      var rows := FetchRecordBatch(sh.table, k.cursor, c.snapshotMaxId, BatchLimit(c, k));
      Effect(sh, k.At(if rows == [] then Failing(Exhausted) else Putting(rows)))
    case Putting(rows) =>
      Effect(PutChunk(c, sh, k.batch, SerializeChunk(rows)), k.(pc := Confirming(rows), unsettled := true))
    case Confirming(rows) =>
      var head := Chunk(c, sh, k.batch);
      Effect(sh, k.At(if head.Some? && |head.value| == |SerializeChunk(rows)| then Committing(rows) else Catching))
    case Committing(rows) =>
      if rows == [] || k.batch in sh.log then Effect(sh, k.At(Catching))
      else Effect(Commit(sh, k, rows), AfterCommit(k, rows))
    case _ => Effect(sh, k)
  }

  function AuditBody(c: Config, body: string, size: nat): Report {
    Report(Audit(c.readId, CsvParser.Parse(body), size, c.limit, c.snapshotMaxId), body)
  }

  /** From a full count to the published file. */
  function ActAssemble(c: Config, sh: Shared, k: Worker): Effect {
    match k.pc
    case CrossChecking =>
      var loaded := LoadResume(Ordered(sh.log));
      if loaded.Failure? then Effect(sh, k.At(Catching))
      else if loaded.value.rowsWritten != c.limit then Effect(sh, k.At(Failing(LogMismatch)))
      else Effect(sh, k.At(Promoting(loaded.value.checkpointCount)))
    case Promoting(batches) => Effect(WriteStatus(sh, Verifying), k.At(Assembling(batches, 1, CsvHeader())))
    case Assembling(batches, next, written) =>
      if next > batches then
        Effect(Publish(c, sh, written), k.At(Sizing))
      else
        var chunk := Chunk(c, sh, next);
        Effect(sh, k.At(if chunk.None? then Catching else Assembling(batches, next + 1, written + chunk.value)))
    case _ => Effect(sh, k)
  }

  /** The streaming parser gets through the text. */
  predicate IsReadable(body: string) {
    !IsRagged(CsvParser.Parse(body))
  }

  /** Reading the published file back. */
  function ActVerify(c: Config, sh: Shared, k: Worker): Effect {
    match k.pc
    case Sizing =>
      var file := Final(c, sh);
      Effect(sh, k.At(if file.Some? && |file.value| > 0 then Heading else Catching))
    case Heading =>
      var file := Final(c, sh);
      Effect(sh, k.At(if file.Some? then Auditing(|file.value|) else Catching))
    case Auditing(size) =>
      var file := Final(c, sh);
      var readable := file.Some? && IsReadable(file.value);
      Effect(sh, k.At(if readable then Recording(AuditBody(c, file.value, size)) else Catching))
    case Recording(report) =>
      Effect(AddReport(sh, report), k.At(if report.result.Passed() then Completing else NotingKey))
    case _ => Effect(sh, k)
  }

  /** The ways to stop. */
  function ActClose(c: Config, sh: Shared, k: Worker): Effect {
    match k.pc
    case Cancelling => Effect(WriteStatus(sh, Cancelled), k.At(Discarding))
    case Discarding => Effect(DropChunks(c, sh), k.At(Ended(WasCancelled)))
    case NotingKey =>
      Effect(WriteJob(sh, SetFileKey(sh.job, FinalKey(c.jobId), sh.now)), k.At(Failing(VerificationFailed)))
    case Completing => Effect(WriteJob(sh, Complete(sh.job, FinalKey(c.jobId), sh.now)), k.At(Cleaning))
    case Cleaning => Effect(DropChunks(c, sh), k.At(Ended(RanToCompletion)))
    case Failing(reason) => Effect(WriteStatus(sh, Status.Failed), k.At(Ended(GaveUp(reason))))
    case Catching => Effect(WriteStatus(sh, Status.Failed), k.At(Ended(Threw)))
    case _ => Effect(sh, k)
  }

  predicate IsClaiming(pc: Pc) {
    pc.Reading? || pc.CancellingEarly? || pc.Admitted? || pc.Claiming? || pc.Stamping?
  }

  predicate IsResuming(pc: Pc) {
    pc.Loading? || pc.Reconciling? || pc.Correcting?
  }

  predicate IsBatching(pc: Pc) {
    pc.LoopHead? || pc.Fetching? || pc.Putting? || pc.Confirming? || pc.Committing?
  }

  predicate IsAssembling(pc: Pc) {
    pc.CrossChecking? || pc.Promoting? || pc.Assembling?
  }

  predicate IsVerifying(pc: Pc) {
    pc.Sizing? || pc.Heading? || pc.Auditing? || pc.Recording?
  }

  function Act(c: Config, sh: Shared, k: Worker): Effect {
    if IsClaiming(k.pc) then ActClaim(c, sh, k)
    else if IsResuming(k.pc) then ActResume(sh, k)
    else if IsBatching(k.pc) then ActBatch(c, sh, k)
    else if IsAssembling(k.pc) then ActAssemble(c, sh, k)
    else if IsVerifying(k.pc) then ActVerify(c, sh, k)
    else ActClose(c, sh, k)
  }

  // ---- Faults -------------------------------------------------------------------

  /** Inside the try block, where a failed request leads to the catch block. */
  predicate InTry(pc: Pc) {
    !IsClaiming(pc) && !pc.Catching? && !pc.Ended?
  }

  function Thrown(from: Pc, k: Worker): Worker {
    k.At(if InTry(from) then Catching else Ended(Threw))
  }

  predicate IsDeleting(pc: Pc) {
    pc.Discarding? || pc.Cleaning?
  }

  /** How a request goes: as intended, refused, done but reported as failed, or cut off by a crash. The deletion
      loop makes many requests: some pages may be gone before it goes on, fails or crashes. */
  datatype Luck = Proceeds | Throws | LosesReply | Crashes | DeletesPage(keys: set<string>)

  function ActWithLuck(c: Config, sh: Shared, k: Worker, luck: Luck): Effect {
    if k.pc.Ended? then Effect(sh, k)
    else match luck
      case Proceeds => Act(c, sh, k)
      case Throws => Effect(sh, Thrown(k.pc, k))
      case LosesReply => var e := Act(c, sh, k); Effect(e.sh, Thrown(k.pc, e.k))
      case Crashes => Effect(sh, k.At(Ended(Crashed)))
      case DeletesPage(keys) => Effect(if IsDeleting(k.pc) then DropPage(c, sh, keys) else sh, k)
  }

  // ---- Everybody's steps ----------------------------------------------------------

  datatype Kind = AskResume | AskCancel

  /** An API request between its read and its write. */
  datatype Request = Request(kind: Kind, seen: JobRow)

  /** `audits` are the audits asked for by users, read but not yet recorded; `queued` says that creation's second
      write has happened. */
  datatype State = State(
    sh: Shared,
    workers: map<nat, Worker>,
    requests: map<nat, Request>,
    audits: map<nat, Report>,
    queued: bool)

  datatype Event =
    | Tick
    | WriteTable(table: Table)
    | WriteObjects(objects: Objects)
    | WriteQueued
    | Sweep(startedAt: int)
    | Ask(id: nat, kind: Kind)
    | Answer(id: nat)
    | Reverify(id: nat, size: nat)
    | Record(id: nat)
    | Start(w: nat, batchSize: nat)
    | Work(w: nat, luck: Luck)

  /** Nobody else touches this job's objects. */
  predicate SameOwnObjects(c: Config, a: Objects, b: Objects) {
    forall key :: key in a.Keys + b.Keys && JobPrefix(c.jobId) <= key ==> Lookup(a, key) == Lookup(b, key)
  }

  predicate Accepts(kind: Kind, status: Status) {
    match kind
    case AskResume => IsResumable(status)
    case AskCancel => IsCancellable(status)
  }

  function Answered(row: JobRow, request: Request, now: int): JobRow {
    match request.kind
    case AskResume => ResumeRow(row, now)
    case AskCancel => CancelRow(row, request.seen.status, now)
  }

  /** The steps that only touch the database and the store. */
  function StepShared(c: Config, sh: Shared, e: Event): Shared {
    match e
    case Tick => sh.(now := sh.now + 1)
    case WriteTable(table) => sh.(table := table)
    case WriteObjects(objects) => if SameOwnObjects(c, sh.objects, objects) then sh.(objects := objects) else sh
    case Sweep(startedAt) =>
      if startedAt <= sh.now then WriteJob(sh, SweepRow(sh.job, startedAt - c.stallTimeout, sh.now)) else sh
    case _ => sh
  }

  /** One step. An event that is not possible in a state changes nothing. */
  function Step(c: Config, s: State, e: Event): State {
    match e
    case WriteQueued =>
      if s.queued then s else s.(sh := WriteStatus(s.sh, Queued), queued := true)
    case Ask(id, kind) =>
      if id in s.requests || !Accepts(kind, s.sh.job.status) then s
      else s.(requests := s.requests[id := Request(kind, s.sh.job)])
    case Answer(id) =>
      if id !in s.requests then s
      else s.(sh := WriteJob(s.sh, Answered(s.sh.job, s.requests[id], s.sh.now)), requests := s.requests - {id})
    case Reverify(id, size) =>
      if id in s.audits || s.sh.job.fileKey != Some(FinalKey(c.jobId)) then s
      else if Final(c, s.sh).None? || !IsReadable(Final(c, s.sh).value) then s
      else s.(audits := s.audits[id := AuditBody(c, Final(c, s.sh).value, size)])
    case Record(id) =>
      if id !in s.audits then s
      else s.(sh := AddReport(s.sh, s.audits[id]), audits := s.audits - {id})
    case Start(w, batchSize) =>
      if w in s.workers then s else s.(workers := s.workers[w := NewWorker(batchSize)])
    case Work(w, luck) =>
      if w !in s.workers then s
      else
        var effect := ActWithLuck(c, s.sh, s.workers[w], luck);
        s.(sh := effect.sh, workers := s.workers[w := effect.k])
    case _ => s.(sh := StepShared(c, s.sh, e))
  }

  function Run(c: Config, s: State, events: seq<Event>): State {
    if events == [] then s
    else Step(c, Run(c, s, events[..|events| - 1]), events[|events| - 1])
  }

  /** The state after worker `w` moved. */
  function After(s: State, w: nat, e: Effect): State {
    s.(sh := e.sh, workers := s.workers[w := e.k])
  }

  lemma WorkIs(c: Config, s: State, w: nat, luck: Luck)
    requires w in s.workers
    ensures Step(c, s, Work(w, luck)) == After(s, w, ActWithLuck(c, s.sh, s.workers[w], luck))
  {
    hide ActWithLuck;
  }

  lemma NothingHappens(c: Config, s: State, e: Event)
    requires (e.Work? && e.w !in s.workers) || (e.Start? && e.w in s.workers)
    ensures Step(c, s, e) == s
  {
    hide ActWithLuck, StepShared;
  }

  lemma RunNone(c: Config, s: State, events: seq<Event>)
    ensures Run(c, s, events[..0]) == s
  {
  }

  lemma RunOne(c: Config, s: State, events: seq<Event>, n: nat)
    requires n < |events|
    ensures Run(c, s, events[..n + 1]) == Step(c, Run(c, s, events[..n]), events[n])
  {
    hide Step;
    assert events[..n + 1][..n] == events[..n];
  }

  /** A job just inserted, with nothing under its prefix in the store. */
  predicate Init(c: Config, s: State) {
    && s.sh.job == NewRow(s.sh.job.updatedAt) && s.sh.job.updatedAt <= s.sh.now
    && s.sh.log == map[] && s.sh.reports == [] && s.sh.puts == 0
    && (forall key :: key in s.sh.objects ==> !(JobPrefix(c.jobId) <= key))
    && s.workers == map[] && s.requests == map[] && s.audits == map[] && !s.queued
  }

  // ---- Keys in the store -----------------------------------------------------------

  lemma ChunkAfterPut(c: Config, sh: Shared, n: nat, body: string, m: nat)
    requires c.Valid()
    ensures Chunk(c, PutChunk(c, sh, n, body), m) == if m == n then Some(body) else Chunk(c, sh, m)
    ensures Final(c, PutChunk(c, sh, n, body)) == Final(c, sh)
  {
    if OwnKey(c, m) == OwnKey(c, n) {
      ChunkKeyInjective(c.jobId, m, c.jobId, n);
    }
    ChunkKeyIsNotFinal(c.jobId, n, c.jobId);
  }

  lemma ChunkAfterDrop(c: Config, sh: Shared, m: nat)
    requires c.Valid()
    ensures Chunk(c, DropChunks(c, sh), m) == None
    ensures Final(c, DropChunks(c, sh)) == Final(c, sh)
  {
    ChunkPrefixCatches(c.jobId, c.jobId, m);
  }

  lemma ChunkAfterPage(c: Config, sh: Shared, keys: set<string>, m: nat)
    requires c.Valid()
    ensures Chunk(c, DropPage(c, sh, keys), m).Some? ==> Chunk(c, DropPage(c, sh, keys), m) == Chunk(c, sh, m)
    ensures Final(c, DropPage(c, sh, keys)) == Final(c, sh)
  {
    ChunkPrefixCatches(c.jobId, c.jobId, m);
  }

  lemma DropKeepsRow(c: Config, sh: Shared)
    ensures DropChunks(c, sh) == sh.(objects := DropChunks(c, sh).objects)
  {
    hide WithoutChunks;
  }

  lemma PageKeepsRow(c: Config, sh: Shared, keys: set<string>)
    ensures DropPage(c, sh, keys) == sh.(objects := DropPage(c, sh, keys).objects)
  {
  }

  lemma ChunkAfterPublish(c: Config, sh: Shared, body: string, m: nat)
    requires c.Valid()
    ensures Chunk(c, Publish(c, sh, body), m) == Chunk(c, sh, m)
    ensures Final(c, Publish(c, sh, body)) == Some(body)
  {
    ChunkKeyIsNotFinal(c.jobId, m, c.jobId);
  }

  lemma OwnAfterForeign(c: Config, sh: Shared, objects: Objects, m: nat)
    requires SameOwnObjects(c, sh.objects, objects)
    ensures Chunk(c, sh.(objects := objects), m) == Chunk(c, sh, m)
    ensures Final(c, sh.(objects := objects)) == Final(c, sh)
  {
    ChunkKeyTail(c.jobId, m);
    FinalKeyTail(c.jobId);
    assert JobPrefix(c.jobId) <= OwnKey(c, m) && JobPrefix(c.jobId) <= FinalKey(c.jobId);
  }

  lemma NothingAtStart(c: Config, s: State, m: nat)
    requires Init(c, s)
    ensures Chunk(c, s.sh, m) == None && Final(c, s.sh) == None
  {
    ChunkKeyTail(c.jobId, m);
    FinalKeyTail(c.jobId);
  }

  /** What a shared step of somebody else leaves alone. */
  lemma SharedStepKeeps(c: Config, sh: Shared, e: Event)
    ensures
      var sh' := StepShared(c, sh, e);
      && sh'.log == sh.log && sh'.puts == sh.puts
      && sh'.reports == sh.reports
      && (!e.WriteTable? ==> sh'.table == sh.table)
      && Final(c, sh') == Final(c, sh)
      && forall m :: Chunk(c, sh', m) == Chunk(c, sh, m)
  {
    if e.WriteObjects? && SameOwnObjects(c, sh.objects, e.objects) {
      forall m
        ensures Chunk(c, StepShared(c, sh, e), m) == Chunk(c, sh, m)
      {
        OwnAfterForeign(c, sh, e.objects, m);
      }
      OwnAfterForeign(c, sh, e.objects, 0);
    }
  }

  // ---- Which requests touch the data ------------------------------------------------

  predicate SameData(a: Shared, b: Shared) {
    a.table == b.table && a.log == b.log && a.objects == b.objects
  }

  predicate HoldsBatch(pc: Pc) {
    pc.Putting? || pc.Confirming? || pc.Committing?
  }

  /** The worker carries no rows and no bytes. */
  predicate IsLight(pc: Pc) {
    !HoldsBatch(pc) && !pc.Assembling?
  }

  lemma ClaimIsLight(c: Config, sh: Shared, k: Worker)
    requires IsClaiming(k.pc)
    ensures var e := ActClaim(c, sh, k); SameData(sh, e.sh) && IsLight(e.k.pc) && e.k.batchSize == k.batchSize
  {
  }

  lemma ResumeIsLight(sh: Shared, k: Worker)
    requires IsResuming(k.pc)
    ensures var e := ActResume(sh, k); SameData(sh, e.sh) && IsLight(e.k.pc) && e.k.batchSize == k.batchSize
  {
    hide LoadResume, Ordered;
  }

  lemma VerifyIsLight(c: Config, sh: Shared, k: Worker)
    requires IsVerifying(k.pc)
    ensures var e := ActVerify(c, sh, k); SameData(sh, e.sh) && IsLight(e.k.pc) && e.k.batchSize == k.batchSize
  {
    hide AuditBody, IsReadable;
  }

  lemma CloseIsLight(c: Config, sh: Shared, k: Worker)
    requires IsLight(k.pc)
    ensures
      var e := ActClose(c, sh, k);
      && (SameData(sh, e.sh) || e.sh == DropChunks(c, sh))
      && IsLight(e.k.pc) && e.k.batchSize == k.batchSize
  {
    hide WithoutChunks;
  }

  /** Outside the loop and the assembly a request leaves table, log and objects alone, or drops the chunks. */
  lemma OtherActsAreLight(c: Config, sh: Shared, k: Worker)
    requires !IsBatching(k.pc) && !IsAssembling(k.pc)
    ensures
      var e := Act(c, sh, k);
      && (SameData(sh, e.sh) || e.sh == DropChunks(c, sh))
      && IsLight(e.k.pc) && e.k.batchSize == k.batchSize
  {
    hide ActClaim, ActResume, ActVerify, ActClose, DropChunks;
    if IsClaiming(k.pc) {
      ClaimIsLight(c, sh, k);
    } else if IsResuming(k.pc) {
      ResumeIsLight(sh, k);
    } else if IsVerifying(k.pc) {
      VerifyIsLight(c, sh, k);
    } else {
      CloseIsLight(c, sh, k);
    }
  }

  lemma ThrownIsLight(from: Pc, k: Worker)
    ensures IsLight(Thrown(from, k).pc) && Thrown(from, k).batchSize == k.batchSize
  {
  }
}
