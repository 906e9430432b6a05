/** The export_jobs row: what every writer does to it (server/src/services/export.service.ts,
    server/src/services/stalledJobs.service.ts, and the row writes of server/src/services/exportRunner.service.ts). */
module Jobs {
  import opened Common
  import opened RecordSource
  import opened Resume
  import opened Verification

  datatype Status =
    | Pending | Queued | Running | Interrupted | Resuming | Verifying | Completed | Failed | Cancelled

  /** The columns that change during a job's life. `updatedAt` is stamped by every write. */
  datatype JobRow = JobRow(
    status: Status,
    lastExportedId: Option<nat>,
    exportedRowCount: nat,
    fileKey: Option<string>,
    startedAt: Option<int>,
    cancelRequested: bool,
    updatedAt: int)

  /** A stored verification. The digest stands for the text it was computed from. */
  datatype Report = Report(result: VerificationResult, body: string)

  const MAX_ROW_LIMIT := 50000

  predicate IsResumable(status: Status) {
    status in {Pending, Queued, Interrupted, Resuming, Status.Failed}
  }

  predicate IsCancellable(status: Status) {
    status in {Pending, Queued, Running, Resuming, Interrupted}
  }

  predicate IsTerminal(status: Status) {
    status in {Completed, Cancelled}
  }

  predicate IsStale(row: JobRow, cutoff: int) {
    row.status == Running && row.updatedAt < cutoff
  }

  predicate IsClaimable(row: JobRow, cutoff: int) {
    IsResumable(row.status) || IsStale(row, cutoff)
  }

  // ---- Row writes ------------------------------------------------------------

  function NewRow(now: int): JobRow {
    JobRow(Pending, None, 0, None, None, false, now)
  }

  function SetStatus(row: JobRow, status: Status, now: int): JobRow {
    row.(status := status, updatedAt := now)
  }

  function StampStart(row: JobRow, now: int): JobRow {
    if row.startedAt.None? then row.(startedAt := Some(now), updatedAt := now) else row
  }

  function SetProgress(row: JobRow, lastExportedId: Option<nat>, exportedRowCount: nat, now: int): JobRow {
    row.(lastExportedId := lastExportedId, exportedRowCount := exportedRowCount, updatedAt := now)
  }

  function SetFileKey(row: JobRow, key: string, now: int): JobRow {
    row.(fileKey := Some(key), updatedAt := now)
  }

  function Complete(row: JobRow, key: string, now: int): JobRow {
    row.(status := Completed, fileKey := Some(key), updatedAt := now)
  }

  function ResumeRow(row: JobRow, now: int): JobRow {
    row.(status := Resuming, cancelRequested := false, updatedAt := now)
  }

  /** A job seen running is only flagged; any other is cancelled on the spot. */
  function CancelRow(row: JobRow, seen: Status, now: int): JobRow {
    row.(cancelRequested := true, status := if seen == Running then row.status else Cancelled, updatedAt := now)
  }

  function SweepRow(row: JobRow, cutoff: int, now: int): JobRow {
    if IsStale(row, cutoff) then SetStatus(row, Interrupted, now) else row
  }

  /** The progress columns say what the log says. */
  predicate ProgressMatches(row: JobRow, state: ResumeState) {
    (if row.lastExportedId.Some? then row.lastExportedId.value else 0) == state.lastExportedId
    && row.exportedRowCount == state.rowsWritten
  }

  function CorrectProgress(row: JobRow, state: ResumeState, now: int): JobRow {
    SetProgress(row, if state.lastExportedId == 0 then None else Some(state.lastExportedId), state.rowsWritten, now)
  }

  function Reconciled(row: JobRow, state: ResumeState, now: int): JobRow {
    if ProgressMatches(row, state) then row else CorrectProgress(row, state, now)
  }

  /** Reconciling brings any disagreeing row in line with the log and touches nothing else but the heartbeat;
      a second reconciliation finds nothing to do. */
  lemma ReconcileRestoresProgress(row: JobRow, state: ResumeState, now: int, later: int)
    ensures ProgressMatches(Reconciled(row, state, now), state)
    ensures Reconciled(Reconciled(row, state, now), state, later) == Reconciled(row, state, now)
    ensures Reconciled(row, state, now)
         == row.(lastExportedId := Reconciled(row, state, now).lastExportedId, exportedRowCount := state.rowsWritten,
                 updatedAt := Reconciled(row, state, now).updatedAt)
  {
  }

  // ---- Downloads -------------------------------------------------------------

  datatype ApiError = ValidationError | ConflictError | ForbiddenError | NotFoundError

  function Latest(reports: seq<Report>): Option<Report> {
    if reports == [] then None else Some(reports[|reports| - 1])
  }

  /** The key a download link is signed for. */
  function GetExportDownload(row: JobRow, reports: seq<Report>): (r: Result<string, ApiError>)
    ensures r.Success? <==>
      && row.status == Completed && row.fileKey.Some?
      && reports != [] && reports[|reports| - 1].result.Passed()
    ensures r.Success? ==> row.fileKey == Some(r.value)
  {
    if row.status != Completed then Failure(ConflictError)
    else if row.fileKey.None? then Failure(ConflictError)
    else
      var latest := Latest(reports);
      if latest.None? || !latest.value.result.Passed() then Failure(ForbiddenError)
      else Success(row.fileKey.value)
  }

  // ---- The table of jobs -------------------------------------------------------

  datatype Job = Job(userId: string, snapshotMaxId: nat, requestedRowLimit: nat, batchSize: nat, row: JobRow)

  class JobTable {
    var jobs: map<string, Job>

    /** Reads one job for its owner; somebody else's job looks like no job. */
    method GetOwnedExportJob(userId: string, id: string) returns (r: Result<Job, ApiError>)
      ensures r.Success? <==> id in jobs && jobs[id].userId == userId
      ensures r.Success? ==> r.value == jobs[id]
      ensures r.Failure? ==> r.error == NotFoundError
    {
      if id !in jobs {
        return Failure(NotFoundError);
      }
      if jobs[id].userId != userId {
        return Failure(NotFoundError);
      }
      return Success(jobs[id]);
    }

    /** The checks before a job is created. The snapshot is read from `table`, the count a moment later from `later`.
        They pass exactly when the limit is in range and the rows then within the snapshot can fill it. */
    static method AdmitExport(rowLimit: int, table: Table, later: Table) returns (r: Result<nat, ApiError>)
      ensures r.Success? <==>
        0 < rowLimit <= 50000 && rowLimit <= CountRecordsWithinSnapshot(later, CaptureSnapshotMaxId(table))
      ensures r.Success? ==> r.value == CaptureSnapshotMaxId(table) && |FirstRows(later, r.value, rowLimit)| == rowLimit
      ensures r.Failure? ==> r.error == if 0 < rowLimit <= 50000 then ConflictError else ValidationError
    {
      if rowLimit <= 0 {
        return Failure(ValidationError);
      }
      if rowLimit > MAX_ROW_LIMIT {
        return Failure(ValidationError);
      }
      var snapshotMaxId := CaptureSnapshotMaxId(table);
      var availableRows := CountRecordsWithinSnapshot(later, snapshotMaxId);
      if availableRows < rowLimit {
        return Failure(ConflictError);
      }
      EnoughRows(later, snapshotMaxId, rowLimit);
      return Success(snapshotMaxId);
    }

    /** Creation freezes the snapshot; a refused request leaves no trace. */
    method CreateExportJob(
      userId: string, rowLimit: int, table: Table, later: Table, id: string, batchSize: nat, now: int)
      returns (r: Result<Job, ApiError>)
      requires id !in jobs
      modifies this
      ensures r.Success? <==>
        0 < rowLimit <= 50000 && rowLimit <= CountRecordsWithinSnapshot(later, CaptureSnapshotMaxId(table))
      ensures r.Success? ==> jobs == old(jobs)[id := r.value]
      ensures r.Success? ==>
        && r.value.userId == userId && r.value.requestedRowLimit == rowLimit && r.value.batchSize == batchSize
        && r.value.snapshotMaxId == CaptureSnapshotMaxId(table)
        && r.value.row == JobRow(Queued, None, 0, None, None, false, now)
      ensures r.Failure? ==> jobs == old(jobs)
      ensures r.Failure? ==> r.error == if 0 < rowLimit <= 50000 then ConflictError else ValidationError
    {
      hide CaptureSnapshotMaxId, CountRecordsWithinSnapshot, FirstRows;
      var admitted := AdmitExport(rowLimit, table, later);
      if admitted.Failure? {
        return Failure(admitted.error);
      }
      jobs := jobs[id := Job(userId, admitted.value, rowLimit, batchSize, NewRow(now))];
      jobs := jobs[id := jobs[id].(row := SetStatus(jobs[id].row, Queued, now))];
      return Success(jobs[id]);
    }

    /** Resuming clears the cancel flag and keeps progress, file key and start time. */
    method ResumeExportJob(userId: string, id: string, now: int) returns (r: Result<Job, ApiError>)
      modifies this
      ensures r == Failure(NotFoundError) <==> id !in old(jobs) || old(jobs)[id].userId != userId
      ensures id in old(jobs) && old(jobs)[id].userId == userId ==>
        && (r.Success? <==> old(jobs)[id].row.status in {Pending, Queued, Interrupted, Resuming, Status.Failed})
        && (r.Failure? ==> r.error == ConflictError)
      ensures r.Failure? ==> jobs == old(jobs)
      ensures r.Success? ==>
        var before := old(jobs)[id];
        && r.value.userId == before.userId && r.value.snapshotMaxId == before.snapshotMaxId
        && r.value.requestedRowLimit == before.requestedRowLimit && r.value.batchSize == before.batchSize
        && r.value.row.status == Resuming && !r.value.row.cancelRequested && r.value.row.updatedAt == now
        && r.value.row.lastExportedId == before.row.lastExportedId
        && r.value.row.exportedRowCount == before.row.exportedRowCount
        && r.value.row.fileKey == before.row.fileKey && r.value.row.startedAt == before.row.startedAt
        && jobs == old(jobs)[id := r.value]
    {
      var owned := GetOwnedExportJob(userId, id);
      if owned.Failure? {
        return Failure(NotFoundError);
      }
      var job := owned.value;
      if job.row.status == Completed || job.row.status == Cancelled {
        return Failure(ConflictError);
      }
      if !IsResumable(job.row.status) {
        return Failure(ConflictError);
      }
      jobs := jobs[id := job.(row := ResumeRow(job.row, now))];
      return Success(jobs[id]);
    }

    /** A running job is only flagged, another one cancelled at once; the flag is set either way, and nothing else of
        the job changes. A cancelled job is returned as it is. */
    method CancelExportJob(userId: string, id: string, now: int) returns (r: Result<Job, ApiError>)
      modifies this
      ensures r == Failure(NotFoundError) <==> id !in old(jobs) || old(jobs)[id].userId != userId
      ensures id in old(jobs) && old(jobs)[id].userId == userId ==>
        var status := old(jobs)[id].row.status;
        && (r.Success? <==> status in {Cancelled, Pending, Queued, Running, Resuming, Interrupted})
        && (r.Failure? ==> r.error == ConflictError)
      ensures r.Success? && old(jobs)[id].row.status == Cancelled ==> r.value == old(jobs)[id]
      ensures r.Success? && old(jobs)[id].row.status != Cancelled ==>
        var before := old(jobs)[id];
        && r.value.userId == before.userId && r.value.snapshotMaxId == before.snapshotMaxId
        && r.value.requestedRowLimit == before.requestedRowLimit && r.value.batchSize == before.batchSize
        && r.value.row.status == (if before.row.status == Running then Running else Cancelled)
        && r.value.row.cancelRequested && r.value.row.updatedAt == now
        && r.value.row.lastExportedId == before.row.lastExportedId
        && r.value.row.exportedRowCount == before.row.exportedRowCount
        && r.value.row.fileKey == before.row.fileKey && r.value.row.startedAt == before.row.startedAt
      ensures jobs == if r.Success? then old(jobs)[id := r.value] else old(jobs)
    {
      var owned := GetOwnedExportJob(userId, id);
      if owned.Failure? {
        return Failure(NotFoundError);
      }
      var job := owned.value;
      if job.row.status == Completed {
        return Failure(ConflictError);
      }
      if job.row.status == Cancelled {
        assert jobs == jobs[id := job];
        return Success(job);
      }
      if !IsCancellable(job.row.status) {
        return Failure(ConflictError);
      }
      jobs := jobs[id := job.(row := CancelRow(job.row, job.row.status, now))];
      return Success(jobs[id]);
    }

    /** One sweep: a running job whose heartbeat is older than the timeout becomes interrupted with its progress, flag,
        file key and start time as they were; every other job stays as it is. */
    method SweepStalledExports(now: int, stallTimeout: nat) returns (swept: nat)
      modifies this
      ensures jobs.Keys == old(jobs).Keys
      ensures forall id :: id in jobs ==>
        var before, after := old(jobs)[id], jobs[id];
        if before.row.status == Running && before.row.updatedAt < now - stallTimeout then
          && after.userId == before.userId && after.snapshotMaxId == before.snapshotMaxId
          && after.requestedRowLimit == before.requestedRowLimit && after.batchSize == before.batchSize
          && after.row.status == Interrupted && after.row.updatedAt == now
          && after.row.cancelRequested == before.row.cancelRequested
          && after.row.lastExportedId == before.row.lastExportedId
          && after.row.exportedRowCount == before.row.exportedRowCount
          && after.row.fileKey == before.row.fileKey && after.row.startedAt == before.row.startedAt
        else after == before
      ensures swept
        == |set id |
              && id in old(jobs)
              && old(jobs)[id].row.status == Running
              && old(jobs)[id].row.updatedAt < now - stallTimeout|
    {
      var cutoff := now - stallTimeout;
      var stalled := set id | id in jobs && IsStale(jobs[id].row, cutoff);
      var remaining := stalled;
      while remaining != {}
        invariant remaining <= stalled && jobs.Keys == old(jobs).Keys
        invariant forall id :: id in remaining ==> jobs[id] == old(jobs)[id]
        invariant forall id :: id in jobs && id !in remaining ==>
            jobs[id] == old(jobs)[id].(row := SweepRow(old(jobs)[id].row, cutoff, now))
        decreases remaining
      {
        var id :| id in remaining;
        remaining := remaining - {id};
        if id in jobs && IsStale(jobs[id].row, cutoff) {
          jobs := jobs[id := jobs[id].(row := SetStatus(jobs[id].row, Interrupted, now))];
        }
      }
      assert stalled
        == set id |
             && id in old(jobs)
             && old(jobs)[id].row.status == Running
             && old(jobs)[id].row.updatedAt < cutoff;
      return |stalled|;
    }
  }
}
