/** A completed job was verified: in every reachable state, with no assumption on timing, workers, faults or writes
    to the table. */
module Completion {
  import opened Common
  import opened Csv
  import opened RecordSource
  import opened Storage
  import opened Resume
  import opened Verification
  import opened Jobs
  import opened Protocol
  import CsvParser

  /** The stored result is what the audit says about the stored text. */
  predicate IsTrueReport(c: Config, r: Report) {
    r == AuditBody(c, r.body, r.result.fileBytes)
  }

  predicate HasPass(reports: seq<Report>) {
    exists r :: r in reports && r.result.Passed()
  }

  ghost predicate SharedOk(c: Config, sh: Shared) {
    && (forall r :: r in sh.reports ==> IsTrueReport(c, r))
    && (sh.job.status == Completed ==> HasPass(sh.reports) && sh.job.fileKey.Some?)
    && (sh.job.fileKey.Some? ==> sh.job.fileKey.value == FinalKey(c.jobId))
    && (sh.reports != [] ==> Final(c, sh).Some?)
  }

  predicate WorkerReports(c: Config, sh: Shared, k: Worker) {
    && (k.pc.Recording? ==> IsTrueReport(c, k.pc.report) && Final(c, sh).Some?)
    && (k.pc.Completing? ==> HasPass(sh.reports))
  }

  ghost predicate CompletionInv(c: Config, s: State) {
    && SharedOk(c, s.sh)
    && (forall w :: w in s.workers ==> WorkerReports(c, s.sh, s.workers[w]))
    && (forall id :: id in s.audits ==> IsTrueReport(c, s.audits[id]) && Final(c, s.sh).Some?)
  }

  /** Reports are only added, and a published file is never removed. */
  predicate Grows(c: Config, sh: Shared, sh': Shared) {
    sh.reports <= sh'.reports && (Final(c, sh).Some? ==> Final(c, sh').Some?)
  }

  ghost predicate TurnKeeps(c: Config, sh: Shared, e: Effect) {
    SharedOk(c, e.sh) && WorkerReports(c, e.sh, e.k) && Grows(c, sh, e.sh)
  }

  lemma FramedReports(c: Config, sh: Shared, sh': Shared, k: Worker)
    requires WorkerReports(c, sh, k) && Grows(c, sh, sh')
    ensures WorkerReports(c, sh', k)
  {
    hide IsTrueReport, Final;
  }

  // ---- One worker's request ----------------------------------------------------------

  lemma ClaimReports(c: Config, sh: Shared, k: Worker)
    requires SharedOk(c, sh) && IsClaiming(k.pc)
    ensures TurnKeeps(c, sh, ActClaim(c, sh, k))
  {
    hide IsTrueReport, HasPass;
  }

  lemma ResumeReports(c: Config, sh: Shared, k: Worker)
    requires SharedOk(c, sh) && IsResuming(k.pc)
    ensures TurnKeeps(c, sh, ActResume(sh, k))
  {
    hide IsTrueReport, HasPass, LoadResume, Ordered;
  }

  lemma BatchReports(c: Config, sh: Shared, k: Worker)
    requires c.Valid() && SharedOk(c, sh) && IsBatching(k.pc)
    ensures TurnKeeps(c, sh, ActBatch(c, sh, k))
  {
    hide IsTrueReport, HasPass, FetchRecordBatch, SerializeChunk, OwnKey, Chunk;
    if k.pc.Putting? {
      ChunkAfterPut(c, sh, k.batch, SerializeChunk(k.pc.rows), 0);
    }
  }

  lemma AssembleReports(c: Config, sh: Shared, k: Worker)
    requires c.Valid() && SharedOk(c, sh) && IsAssembling(k.pc)
    ensures TurnKeeps(c, sh, ActAssemble(c, sh, k))
  {
    hide IsTrueReport, HasPass, LoadResume, Ordered, CsvHeader, Chunk;
  }

  lemma AuditIsTrue(c: Config, body: string, size: nat)
    ensures IsTrueReport(c, AuditBody(c, body, size)) && AuditBody(c, body, size).body == body
  {
  }

  lemma VerifyReports(c: Config, sh: Shared, k: Worker)
    requires SharedOk(c, sh) && WorkerReports(c, sh, k) && IsVerifying(k.pc)
    ensures TurnKeeps(c, sh, ActVerify(c, sh, k))
  {
    hide IsTrueReport, AuditBody, IsReadable, HasPass;
    if k.pc.Auditing? && Final(c, sh).Some? {
      AuditIsTrue(c, Final(c, sh).value, k.pc.size);
    }
    if k.pc.Recording? {
      PassGrows(sh.reports, k.pc.report);
    }
  }

  lemma PassGrows(reports: seq<Report>, r: Report)
    ensures HasPass(reports) || r.result.Passed() ==> HasPass(reports + [r])
  {
    assert r in reports + [r];
  }

  lemma CloseReports(c: Config, sh: Shared, k: Worker)
    requires c.Valid() && SharedOk(c, sh) && WorkerReports(c, sh, k)
    requires !k.pc.Recording?
    ensures TurnKeeps(c, sh, ActClose(c, sh, k))
  {
    hide IsTrueReport, HasPass, Final, ActClose;
    CloseKeepsFinal(c, sh, k);
    CloseRow(c, sh, k);
  }

  lemma CloseRow(c: Config, sh: Shared, k: Worker)
    requires !k.pc.Recording?
    ensures
      var e := ActClose(c, sh, k);
      && e.sh.reports == sh.reports && !e.k.pc.Recording? && (e.k.pc.Completing? ==> e.k == k)
      && (e.sh.job.fileKey == sh.job.fileKey || e.sh.job.fileKey == Some(FinalKey(c.jobId)))
      && (e.sh.job.status == Completed ==>
           sh.job.status == Completed || k.pc.Completing?)
      && (e.sh.job.fileKey.None? ==> sh.job.fileKey.None? && !k.pc.Completing?)
  {
    hide WithoutChunks, FinalKey;
  }

  lemma CloseKeepsFinal(c: Config, sh: Shared, k: Worker)
    requires c.Valid()
    ensures Final(c, ActClose(c, sh, k).sh) == Final(c, sh)
  {
    hide DropChunks;
    ChunkAfterDrop(c, sh, 0);
  }

  lemma ActReports(c: Config, sh: Shared, k: Worker)
    requires c.Valid() && SharedOk(c, sh) && WorkerReports(c, sh, k)
    ensures TurnKeeps(c, sh, Act(c, sh, k))
  {
    hide SharedOk, WorkerReports, TurnKeeps, ActClaim, ActResume, ActBatch, ActAssemble, ActVerify, ActClose;
    if IsClaiming(k.pc) {
      ClaimReports(c, sh, k);
    } else if IsResuming(k.pc) {
      ResumeReports(c, sh, k);
    } else if IsBatching(k.pc) {
      BatchReports(c, sh, k);
    } else if IsAssembling(k.pc) {
      AssembleReports(c, sh, k);
    } else if IsVerifying(k.pc) {
      VerifyReports(c, sh, k);
    } else {
      CloseReports(c, sh, k);
    }
  }

  lemma PageReports(c: Config, sh: Shared, k: Worker, keys: set<string>)
    requires c.Valid() && SharedOk(c, sh) && IsDeleting(k.pc)
    ensures TurnKeeps(c, sh, Effect(DropPage(c, sh, keys), k))
  {
    hide IsTrueReport, HasPass, Final, DropPage;
    PageKeepsRow(c, sh, keys);
    ChunkAfterPage(c, sh, keys, 0);
  }

  lemma LuckReports(c: Config, sh: Shared, k: Worker, luck: Luck)
    requires c.Valid() && SharedOk(c, sh) && WorkerReports(c, sh, k)
    ensures TurnKeeps(c, sh, ActWithLuck(c, sh, k, luck))
  {
    hide SharedOk, Act, Final, IsTrueReport, HasPass, DropPage;
    if luck.DeletesPage? && IsDeleting(k.pc) {
      PageReports(c, sh, k, luck.keys);
    }
    ActReports(c, sh, k);
  }

  // ---- Every run ----------------------------------------------------------------------

  lemma SharedStepReports(c: Config, sh: Shared, e: Event)
    requires SharedOk(c, sh)
    ensures SharedOk(c, StepShared(c, sh, e)) && Grows(c, sh, StepShared(c, sh, e))
  {
    hide IsTrueReport, HasPass, Final, SameOwnObjects;
    SharedStepKeeps(c, sh, e);
  }

  lemma RecordReports(c: Config, sh: Shared, report: Report)
    requires SharedOk(c, sh) && IsTrueReport(c, report) && Final(c, sh).Some?
    ensures SharedOk(c, AddReport(sh, report)) && Grows(c, sh, AddReport(sh, report))
  {
    hide IsTrueReport, HasPass;
    PassGrows(sh.reports, report);
  }

  lemma RowWriteReports(c: Config, sh: Shared, row: JobRow)
    requires SharedOk(c, sh) && row.fileKey == sh.job.fileKey
    requires row.status == Completed ==> sh.job.status == Completed
    ensures SharedOk(c, WriteJob(sh, row)) && Grows(c, sh, WriteJob(sh, row))
  {
    hide IsTrueReport, HasPass;
  }

  lemma OthersFramed(c: Config, s: State, sh': Shared)
    requires CompletionInv(c, s) && Grows(c, s.sh, sh')
    ensures forall w :: w in s.workers ==> WorkerReports(c, sh', s.workers[w])
    ensures forall id :: id in s.audits ==> IsTrueReport(c, s.audits[id]) && Final(c, sh').Some?
  {
    hide SharedOk, WorkerReports, IsTrueReport, Final;
    forall w | w in s.workers
      ensures WorkerReports(c, sh', s.workers[w])
    {
      FramedReports(c, s.sh, sh', s.workers[w]);
    }
  }

  lemma StepKeepsCompletion(c: Config, s: State, e: Event)
    requires c.Valid() && CompletionInv(c, s)
    ensures CompletionInv(c, Step(c, s, e)) && Grows(c, s.sh, Step(c, s, e).sh)
  {
    hide SharedOk, WorkerReports, Grows, StepShared, ActWithLuck, IsTrueReport, AuditBody, IsReadable, Final;
    var sh' := Step(c, s, e).sh;
    assert Grows(c, s.sh, s.sh) by {
      NothingGrows(c, s.sh);
    }
    match e
    case Work(w, luck) =>
      if w in s.workers {
        LuckReports(c, s.sh, s.workers[w], luck);
        OthersFramed(c, s, sh');
      }
    case WriteQueued =>
      if !s.queued {
        RowWriteReports(c, s.sh, SetStatus(s.sh.job, Queued, s.sh.now));
        OthersFramed(c, s, sh');
      }
    case Answer(id) =>
      if id in s.requests {
        RowWriteReports(c, s.sh, Answered(s.sh.job, s.requests[id], s.sh.now));
        OthersFramed(c, s, sh');
      }
    case Ask(id, kind) =>
    case Reverify(id, size) =>
      if Final(c, s.sh).Some? {
        AuditIsTrue(c, Final(c, s.sh).value, size);
      }
    case Record(id) =>
      if id in s.audits {
        RecordReports(c, s.sh, s.audits[id]);
        OthersFramed(c, s, sh');
      }
    case Start(w, batchSize) => NewWorkerReports(c, s.sh, batchSize);
    case _ =>
      SharedStepReports(c, s.sh, e);
      OthersFramed(c, s, sh');
  }

  lemma NothingGrows(c: Config, sh: Shared)
    ensures Grows(c, sh, sh)
  {
  }

  lemma NewWorkerReports(c: Config, sh: Shared, batchSize: nat)
    ensures WorkerReports(c, sh, NewWorker(batchSize))
  {
  }

  lemma {:induction false} CompletionInvAlways(c: Config, s: State, events: seq<Event>)
    requires c.Valid() && Init(c, s)
    ensures CompletionInv(c, Run(c, s, events))
  {
    hide Step;
    if events != [] {
      hide CompletionInv, Init;
      CompletionInvAlways(c, s, events[..|events| - 1]);
      StepKeepsCompletion(c, Run(c, s, events[..|events| - 1]), events[|events| - 1]);
    }
  }

  /** Whenever the job is COMPLETED, a passing verification is on record whose text was exactly what the export
      promises: the header, `limit` rows of nine fields, ids strictly ascending and within the snapshot. The row
      names the final key and the file is in the store. */
  lemma CompletedWasVerified(c: Config, s: State, events: seq<Event>)
    requires c.Valid() && Init(c, s) && Run(c, s, events).sh.job.status == Completed
    ensures
      var sh := Run(c, s, events).sh;
      && sh.job.fileKey == Some(FinalKey(c.jobId)) && Final(c, sh).Some?
      && exists r ::
           && r in sh.reports && r.result.Passed() && r.result.expectedRows == c.limit
           && IsSoundFile(c.readId, CsvParser.Parse(r.body), r.result.fileBytes, c.limit, c.snapshotMaxId)
  {
    hide Run, Init, IsSoundFile, Final, CsvParser.Parse, Counters;
    CompletionInvAlways(c, s, events);
    var sh := Run(c, s, events).sh;
    var r :| r in sh.reports && r.result.Passed();
    AuditPassesIff(c.readId, CsvParser.Parse(r.body), r.result.fileBytes, c.limit, c.snapshotMaxId);
    ExpectedIsLimit(c, r);
  }

  lemma ExpectedIsLimit(c: Config, r: Report)
    requires IsTrueReport(c, r)
    ensures r.result.expectedRows == c.limit
  {
    hide CsvParser.Parse;
  }
}
