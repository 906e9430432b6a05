/** What each outcome of a run leaves behind, for a worker left alone, from any row, log, table and store. */
module Outcomes {
  import opened Common
  import opened RecordSource
  import opened Storage
  import opened Resume
  import opened Verification
  import opened Jobs
  import opened Protocol
  import opened Uninterrupted

  /** The latest report is of the stored file. */
  predicate IsReported(c: Config, sh: Shared, passed: bool) {
    && sh.reports != [] && Final(c, sh) == Some(sh.reports[|sh.reports| - 1].body)
    && sh.reports[|sh.reports| - 1].result.Passed() == passed
  }

  ghost predicate HasNoChunks(c: Config, sh: Shared) {
    forall n: nat :: Chunk(c, sh, n) == None
  }

  predicate HasKey(c: Config, sh: Shared) {
    sh.job.fileKey == Some("exports/" + c.jobId + "/export-" + c.jobId + ".csv")
  }

  /** What a finished run leaves, by its outcome; `before` is what it found. */
  ghost predicate Leaves(c: Config, before: Shared, sh: Shared, outcome: Outcome) {
    match outcome
    case RanToCompletion =>
      sh.job.status == Completed && HasKey(c, sh) && IsReported(c, sh, true) && HasNoChunks(c, sh)
    case WasCancelled => sh.job.status == Cancelled && before.job.cancelRequested
    case GaveUp(reason) =>
      && sh.job.status == Status.Failed
      && (reason == VerificationFailed ==> HasKey(c, sh) && IsReported(c, sh, false))
    case Skipped =>
      && sh == before
      && (before.job.status in {Completed, Cancelled, Verifying}
          || (before.job.status == Running && before.job.updatedAt >= before.now - c.stallTimeout))
    case Threw => sh.job.status == Status.Failed
    case Crashed => false
  }

  /** What is known where the worker stands. */
  ghost predicate Knows(c: Config, before: Shared, sh: Shared, k: Worker) {
    && sh.now == before.now && sh.job.cancelRequested == before.job.cancelRequested
    && match k.pc
       case Reading => sh == before
       case CancellingEarly => sh.job.cancelRequested
       case Admitted => sh == before && !IsTerminal(sh.job.status)
       case Claiming(cutoff) => sh == before && cutoff == sh.now - c.stallTimeout
       case Cancelling => sh.job.cancelRequested
       case Discarding => sh.job.status == Cancelled && sh.job.cancelRequested
       case Assembling(_, _, _) => sh.job.status == Verifying
       case Sizing => sh.job.status == Verifying
       case Heading => sh.job.status == Verifying
       case Auditing(_) => sh.job.status == Verifying
       case Recording(report) => sh.job.status == Verifying && Final(c, sh) == Some(report.body)
       case NotingKey => sh.job.status == Verifying && IsReported(c, sh, false)
       case Completing => sh.job.status == Verifying && IsReported(c, sh, true)
       case Cleaning => sh.job.status == Completed && HasKey(c, sh) && IsReported(c, sh, true)
       case Failing(reason) => reason == VerificationFailed ==> HasKey(c, sh) && IsReported(c, sh, false)
       case Ended(outcome) => Leaves(c, before, sh, outcome)
       case _ => true
  }

  lemma ClaimKnows(c: Config, before: Shared, sh: Shared, k: Worker)
    requires IsClaiming(k.pc) && Knows(c, before, sh, k)
    ensures var e := ActClaim(c, sh, k); Knows(c, before, e.sh, e.k)
  {
    hide IsReported, HasNoChunks, HasKey;
  }

  lemma ResumeKnows(c: Config, before: Shared, sh: Shared, k: Worker)
    requires IsResuming(k.pc) && Knows(c, before, sh, k)
    ensures var e := ActResume(sh, k); Knows(c, before, e.sh, e.k)
  {
    hide IsReported, HasNoChunks, HasKey, LoadResume, Ordered;
  }

  lemma BatchKnows(c: Config, before: Shared, sh: Shared, k: Worker)
    requires IsBatching(k.pc) && Knows(c, before, sh, k)
    ensures var e := ActBatch(c, sh, k); Knows(c, before, e.sh, e.k)
  {
    hide IsReported, HasNoChunks, HasKey, FetchRecordBatch, Chunk, Leaves;
  }

  lemma PublishKeepsRow(c: Config, sh: Shared, body: string)
    ensures Publish(c, sh, body).job == sh.job && Publish(c, sh, body).now == sh.now
  {
  }

  lemma AssembleKnows(c: Config, before: Shared, sh: Shared, k: Worker)
    requires IsAssembling(k.pc) && Knows(c, before, sh, k)
    ensures var e := ActAssemble(c, sh, k); Knows(c, before, e.sh, e.k)
  {
    hide IsReported, HasNoChunks, HasKey, LoadResume, Ordered, Chunk, Leaves, Publish;
    if k.pc.Assembling? {
      PublishKeepsRow(c, sh, k.pc.written);
    }
  }

  lemma ReportIsOf(c: Config, body: string, size: nat)
    ensures AuditBody(c, body, size).body == body
  {
  }

  lemma VerifyKnows(c: Config, before: Shared, sh: Shared, k: Worker)
    requires IsVerifying(k.pc) && Knows(c, before, sh, k)
    ensures var e := ActVerify(c, sh, k); Knows(c, before, e.sh, e.k)
  {
    hide HasNoChunks, HasKey, AuditBody, IsReadable, Leaves;
    if Final(c, sh).Some? && k.pc.Auditing? {
      ReportIsOf(c, Final(c, sh).value, k.pc.size);
    }
  }

  lemma DropKnows(c: Config, sh: Shared)
    requires c.Valid()
    ensures HasNoChunks(c, DropChunks(c, sh)) && DropChunks(c, sh).job == sh.job && DropChunks(c, sh).now == sh.now
    ensures forall passed :: IsReported(c, sh, passed) ==> IsReported(c, DropChunks(c, sh), passed)
  {
    hide Chunk, Final, DropChunks;
    DropKeepsRow(c, sh);
    ChunkAfterDrop(c, sh, 0);
    forall n: nat
      ensures Chunk(c, DropChunks(c, sh), n) == None
    {
      ChunkAfterDrop(c, sh, n);
    }
  }

  lemma DeleteKnows(c: Config, before: Shared, sh: Shared, k: Worker)
    requires c.Valid() && IsDeleting(k.pc) && Knows(c, before, sh, k)
    ensures var e := ActClose(c, sh, k); Knows(c, before, e.sh, e.k)
  {
    hide HasNoChunks, HasKey, IsReported, DropChunks;
    DropKnows(c, sh);
    DropKeepsKey(c, sh);
    DropKeepsRow(c, sh);
  }

  lemma DropKeepsKey(c: Config, sh: Shared)
    ensures HasKey(c, DropChunks(c, sh)) == HasKey(c, sh)
  {
    DropKeepsRow(c, sh);
  }

  lemma CloseKnows(c: Config, before: Shared, sh: Shared, k: Worker)
    requires !k.pc.Ended? && !IsDeleting(k.pc) && Knows(c, before, sh, k)
    requires !IsClaiming(k.pc) && !IsResuming(k.pc) && !IsBatching(k.pc) && !IsAssembling(k.pc) && !IsVerifying(k.pc)
    ensures var e := ActClose(c, sh, k); Knows(c, before, e.sh, e.k)
  {
    hide HasNoChunks, DropChunks, FinalKey, Leaves;
    FinalKeyForm(c.jobId);
    CatchLeaves(c, before, WriteStatus(sh, Status.Failed));
    if k.pc.Failing? {
      hide IsReported, HasKey;
      FailLeaves(c, before, sh, k.pc.reason);
    }
  }

  lemma CatchLeaves(c: Config, before: Shared, sh: Shared)
    requires sh.job.status == Status.Failed
    ensures Leaves(c, before, sh, Threw)
  {
  }

  lemma FailLeaves(c: Config, before: Shared, sh: Shared, reason: Reason)
    requires reason == VerificationFailed ==> HasKey(c, sh) && IsReported(c, sh, false)
    ensures Leaves(c, before, WriteStatus(sh, Status.Failed), GaveUp(reason))
  {
    hide HasNoChunks;
  }

  lemma ActKnows(c: Config, before: Shared, sh: Shared, k: Worker)
    requires c.Valid() && !k.pc.Ended? && Knows(c, before, sh, k)
    ensures var e := Act(c, sh, k); Knows(c, before, e.sh, e.k)
  {
    hide Knows, ActClaim, ActResume, ActBatch, ActAssemble, ActVerify, ActClose;
    if IsClaiming(k.pc) {
      ClaimKnows(c, before, sh, k);
    } else if IsResuming(k.pc) {
      ResumeKnows(c, before, sh, k);
    } else if IsBatching(k.pc) {
      BatchKnows(c, before, sh, k);
    } else if IsAssembling(k.pc) {
      AssembleKnows(c, before, sh, k);
    } else if IsVerifying(k.pc) {
      VerifyKnows(c, before, sh, k);
    } else if IsDeleting(k.pc) {
      DeleteKnows(c, before, sh, k);
    } else {
      CloseKnows(c, before, sh, k);
    }
  }

  lemma {:induction false} RunKnows(c: Config, before: Shared, sh: Shared, k: Worker)
    requires c.Valid() && Knows(c, before, sh, k)
    ensures var e := RunAlone(c, sh, k); Leaves(c, before, e.sh, e.k.pc.outcome)
    decreases Phase(k.pc), Remaining(c, k), Turn(c, k)
  {
    hide Phase, Remaining, Turn, Act, Leaves;
    if !k.pc.Ended? {
      ActDescends(c, sh, k);
      ActKnows(c, before, sh, k);
      hide Knows;
      RunKnows(c, before, Act(c, sh, k).sh, Act(c, sh, k).k);
    }
  }

  /** Whatever a run finds, its outcome tells what it leaves: the status, the key, the report and the chunks. */
  lemma OutcomeTells(c: Config, sh: Shared, batchSize: nat)
    requires c.Valid()
    ensures
      var e := RunAlone(c, sh, NewWorker(batchSize));
      Leaves(c, sh, e.sh, e.k.pc.outcome)
  {
    hide RunAlone, Leaves;
    RunKnows(c, sh, sh, NewWorker(batchSize));
  }

  /** A request that throws does nothing itself. Before the claim is done, and in the catch block, the run ends with the
      row as it is; after it the catch block marks the job FAILED, whatever its status was. */
  lemma ThrowTells(c: Config, sh: Shared, k: Worker)
    requires !k.pc.Ended?
    ensures
      var e := ActWithLuck(c, sh, k, Throws);
      && e.sh == sh
      && if || k.pc.Reading? || k.pc.CancellingEarly? || k.pc.Admitted?
            || k.pc.Claiming? || k.pc.Stamping? || k.pc.Catching?
         then e.k.pc == Ended(Threw)
         else RunAlone(c, sh, e.k).sh.job.status == Status.Failed && RunAlone(c, sh, e.k).k.pc == Ended(Threw)
  {
    hide ActClaim, ActResume, ActBatch, ActAssemble, ActVerify, DropPage, DropChunks;
    if InTry(k.pc) {
      CatchRuns(c, sh, k.At(Catching));
    }
  }

  /** After assembly the stored file is looked at before it is audited: a missing or an empty one ends the
      run FAILED, and no report is made. */
  lemma EmptyFileThrows(c: Config, sh: Shared, k: Worker)
    requires k.pc.Sizing? && (Final(c, sh) == None || Final(c, sh) == Some(""))
    ensures
      var e := RunAlone(c, sh, k);
      e.sh == WriteStatus(sh, Status.Failed) && e.k.pc == Ended(Threw) && e.sh.reports == sh.reports
  {
    hide ActClaim, ActResume, ActBatch, ActAssemble, ActClose, Final, AuditBody, IsReadable;
    CatchRuns(c, sh, k.At(Catching));
    assert Act(c, sh, k) == Effect(sh, k.At(Catching));
  }

  lemma CatchRuns(c: Config, sh: Shared, k: Worker)
    requires k.pc.Catching?
    ensures
      var e := RunAlone(c, sh, k);
      e.sh == WriteStatus(sh, Status.Failed) && e.k.pc == Ended(Threw)
  {
    hide ActClaim, ActResume, ActBatch, ActAssemble, ActVerify, DropChunks;
    var e := Act(c, sh, k);
    assert RunAlone(c, e.sh, e.k) == e;
  }
}
