/** The checkpoint log and the resume position read from it (server/src/services/exportResume.service.ts). */
module Resume {
  import opened Common
  import opened RecordSource

  datatype Entry = Entry(lastRecordId: nat, rowsWritten: nat)

  /** The log of one job: the UNIQUE(job, batch) constraint makes the batch number a key. */
  type CheckpointLog = map<nat, Entry>

  datatype Checkpoint = Checkpoint(batchNumber: nat, lastRecordId: nat, rowsWritten: nat)

  function Rows(log: CheckpointLog, numbers: seq<nat>): (cps: seq<Checkpoint>)
    requires forall i :: 0 <= i < |numbers| ==> numbers[i] in log
    ensures |cps| == |numbers|
  {
    seq(|numbers|, i requires 0 <= i < |numbers| =>
      Checkpoint(numbers[i], log[numbers[i]].lastRecordId, log[numbers[i]].rowsWritten))
  }

  function Numbers(log: CheckpointLog): (numbers: seq<nat>)
    ensures |numbers| == |log|
    ensures forall i :: 0 <= i < |numbers| ==> numbers[i] in log
  {
    var numbers := Ascending(log.Keys);
    assert forall i :: 0 <= i < |numbers| ==> numbers[i] in numbers;
    numbers
  }

  /** The log in batch order, as the query returns it. */
  function Ordered(log: CheckpointLog): (cps: seq<Checkpoint>)
    ensures |cps| == |log|
  {
    Rows(log, Numbers(log))
  }

  function LastId(cps: seq<Checkpoint>): nat {
    if cps == [] then 0 else cps[|cps| - 1].lastRecordId
  }

  function Total(cps: seq<Checkpoint>): nat {
    if cps == [] then 0 else Total(cps[..|cps| - 1]) + cps[|cps| - 1].rowsWritten
  }

  datatype ResumeState = ResumeState(nextBatchNumber: nat, lastExportedId: nat, rowsWritten: nat, checkpointCount: nat)

  datatype LogError =
    | Gap(expectedBatchNumber: nat, foundBatchNumber: nat)
    | NotIncreasing(batchNumber: nat)

  function Position(cps: seq<Checkpoint>): ResumeState {
    ResumeState(|cps| + 1, LastId(cps), Total(cps), |cps|)
  }

  predicate IsFault(cps: seq<Checkpoint>, i: nat)
    requires i < |cps|
  {
    cps[i].batchNumber != i + 1 || cps[i].lastRecordId <= LastId(cps[..i])
  }

  /** Numbered 1..N with positive, strictly increasing last ids. */
  predicate ValidLog(cps: seq<Checkpoint>) {
    forall i :: 0 <= i < |cps| ==> !IsFault(cps, i)
  }

  /** The first fault in the log is at `k`. */
  predicate FirstFaultAt(cps: seq<Checkpoint>, k: nat) {
    k < |cps| && IsFault(cps, k) && forall j :: 0 <= j < k ==> !IsFault(cps, j)
  }

  function Fault(cps: seq<Checkpoint>, i: nat): LogError
    requires i < |cps|
  {
    if cps[i].batchNumber != i + 1 then Gap(i + 1, cps[i].batchNumber) else NotIncreasing(cps[i].batchNumber)
  }

  function LoadFrom(cps: seq<Checkpoint>, i: nat): Result<ResumeState, LogError>
    requires i <= |cps|
    decreases |cps| - i
  {
    if i == |cps| then Success(Position(cps))
    else if IsFault(cps, i) then Failure(Fault(cps, i))
    else LoadFrom(cps, i + 1)
  }

  /** The resume position, or the first thing wrong with the log. */
  function LoadResume(cps: seq<Checkpoint>): Result<ResumeState, LogError> {
    LoadFrom(cps, 0)
  }

  lemma {:induction false} LoadFromMeans(cps: seq<Checkpoint>, i: nat)
    requires i <= |cps| && forall k :: 0 <= k < i ==> !IsFault(cps, k)
    ensures LoadFrom(cps, i).Success? <==> ValidLog(cps)
    ensures ValidLog(cps) ==> LoadFrom(cps, i).value == Position(cps)
    ensures forall k :: FirstFaultAt(cps, k) ==> LoadFrom(cps, i) == Failure(Fault(cps, k))
    decreases |cps| - i
  {
    if i < |cps| && !IsFault(cps, i) {
      LoadFromMeans(cps, i + 1);
    }
  }

  /** A log is refused exactly when it is not valid, and then for its first fault; an accepted log
      gives the position after its last entry. */
  lemma LoadResumeIff(cps: seq<Checkpoint>)
    ensures LoadResume(cps).Success? <==> ValidLog(cps)
    ensures ValidLog(cps) ==> LoadResume(cps).value == Position(cps)
    ensures forall k :: FirstFaultAt(cps, k) ==> LoadResume(cps) == Failure(Fault(cps, k))
  {
    LoadFromMeans(cps, 0);
  }

  /** Entry `i` carries the next number and an id above the one before it, or above zero. */
  predicate Follows(cps: seq<Checkpoint>, i: nat)
    requires i < |cps|
  {
    && cps[i].batchNumber == i + 1
    && cps[i].lastRecordId > if i == 0 then 0 else cps[i - 1].lastRecordId
  }

  lemma FaultMeans(cps: seq<Checkpoint>, i: nat)
    requires i < |cps|
    ensures IsFault(cps, i) <==> !Follows(cps, i)
  {
  }

  lemma {:induction false} FirstBreak(cps: seq<Checkpoint>, n: nat) returns (k: nat)
    requires n < |cps| && !Follows(cps, n)
    ensures k <= n && !Follows(cps, k) && forall i :: 0 <= i < k ==> Follows(cps, i)
  {
    hide Follows;
    k := 0;
    while Follows(cps, k)
      invariant k <= n && forall i :: 0 <= i < k ==> Follows(cps, i)
      decreases n - k
    {
      k := k + 1;
    }
  }

  /** The same in terms of the entries: a log that follows on gives the position after it, any other is refused for
      the first entry that does not. */
  lemma LoadResumeMeans(cps: seq<Checkpoint>)
    ensures
      var r := LoadResume(cps);
      && (r.Success? <==> forall i :: 0 <= i < |cps| ==> Follows(cps, i))
      && (r.Success? ==>
           && r.value.nextBatchNumber == |cps| + 1
           && r.value.checkpointCount == |cps|
           && r.value.rowsWritten == Total(cps)
           && r.value.lastExportedId == if cps == [] then 0 else cps[|cps| - 1].lastRecordId)
      && (r.Failure? ==> exists k ::
           && 0 <= k < |cps| && !Follows(cps, k) && (forall i :: 0 <= i < k ==> Follows(cps, i))
           && r.error == if cps[k].batchNumber != k + 1 then Gap(k + 1, cps[k].batchNumber)
                         else NotIncreasing(cps[k].batchNumber))
  {
    hide LoadResume, Follows, IsFault;
    forall i | 0 <= i < |cps|
      ensures IsFault(cps, i) <==> !Follows(cps, i)
    {
      FaultMeans(cps, i);
    }
    LoadResumeIff(cps);
    if n: nat :| n < |cps| && !Follows(cps, n) {
      var k := FirstBreak(cps, n);
      assert FirstFaultAt(cps, k);
    }
  }

  method LoadResumeState(checkpoints: seq<Checkpoint>) returns (r: Result<ResumeState, LogError>)
    ensures r == LoadResume(checkpoints)
  {
    if |checkpoints| == 0 {
      return Success(ResumeState(1, 0, 0, 0));
    }
    var rowsWritten, previousLastId := 0, 0;
    for i := 0 to |checkpoints|
      invariant LoadResume(checkpoints) == LoadFrom(checkpoints, i)
      invariant rowsWritten == Total(checkpoints[..i]) && previousLastId == LastId(checkpoints[..i])
      invariant forall k :: 0 <= k < i ==> checkpoints[k].batchNumber == k + 1
    {
      var checkpoint := checkpoints[i];
      var expectedBatchNumber := i + 1;
      if checkpoint.batchNumber != expectedBatchNumber {
        return Failure(Gap(expectedBatchNumber, checkpoint.batchNumber));
      }
      if checkpoint.lastRecordId <= previousLastId {
        return Failure(NotIncreasing(checkpoint.batchNumber));
      }
      assert checkpoints[..i + 1][..i] == checkpoints[..i];
      previousLastId := checkpoint.lastRecordId;
      rowsWritten := rowsWritten + checkpoint.rowsWritten;
    }
    assert checkpoints[..|checkpoints|] == checkpoints;
    var last := checkpoints[|checkpoints| - 1];
    return Success(ResumeState(last.batchNumber + 1, last.lastRecordId, rowsWritten, |checkpoints|));
  }

  // ---- Appending ------------------------------------------------------------

  lemma CountingUp(numbers: seq<nat>, ids: set<nat>)
    requires Lists(numbers, ids) && forall i :: 0 <= i < |numbers| ==> numbers[i] == i + 1
    ensures forall n :: n in ids <==> 1 <= n <= |numbers|
  {
    forall n | 1 <= n <= |numbers|
      ensures n in ids
    {
      assert numbers[n - 1] in numbers;
    }
    forall n | n in ids
      ensures 1 <= n <= |numbers|
    {
      assert n in numbers;
    }
  }

  lemma KeysOfNumbered(log: CheckpointLog)
    requires ValidLog(Ordered(log))
    ensures forall n :: n in log <==> 1 <= n <= |log|
  {
    var numbers, cps := Numbers(log), Ordered(log);
    forall i | 0 <= i < |cps|
      ensures numbers[i] == i + 1
    {
      assert !IsFault(cps, i);
    }
    CountingUp(numbers, log.Keys);
  }

  lemma AppendNumber(log: CheckpointLog, n: nat, e: Entry)
    requires forall m :: m in log.Keys ==> m < n
    ensures Numbers(log[n := e]) == Numbers(log) + [n]
  {
    assert log[n := e].Keys == log.Keys + {n};
    AscendingExtend(log.Keys, n);
  }

  lemma RowsOfMore(log: CheckpointLog, n: nat, e: Entry, numbers: seq<nat>)
    requires n !in log && forall i :: 0 <= i < |numbers| ==> numbers[i] in log
    ensures Rows(log[n := e], numbers + [n]) == Rows(log, numbers) + [Checkpoint(n, e.lastRecordId, e.rowsWritten)]
  {
  }

  /** Adding the next batch number appends to the ordered log. */
  lemma AppendEntry(log: CheckpointLog, e: Entry)
    requires ValidLog(Ordered(log))
    ensures |log| + 1 !in log
    ensures Ordered(log[|log| + 1 := e]) == Ordered(log) + [Checkpoint(|log| + 1, e.lastRecordId, e.rowsWritten)]
  {
    KeysOfNumbered(log);
    AppendNumber(log, |log| + 1, e);
    RowsOfMore(log, |log| + 1, e, Numbers(log));
  }

  lemma {:induction false} TotalOfConcat(a: seq<Checkpoint>, b: seq<Checkpoint>)
    ensures Total(a + b) == Total(a) + Total(b)
  {
    if b == [] {
      assert a + b == a;
    } else {
      assert (a + b)[..|a + b| - 1] == a + b[..|b| - 1];
      TotalOfConcat(a, b[..|b| - 1]);
    }
  }

  lemma TotalOfPrefix(cps: seq<Checkpoint>, n: nat)
    requires n <= |cps|
    ensures Total(cps[..n]) <= Total(cps)
  {
    TotalOfConcat(cps[..n], cps[n..]);
    assert cps == cps[..n] + cps[n..];
  }

  lemma TotalAppend(cps: seq<Checkpoint>, cp: Checkpoint)
    ensures Total(cps + [cp]) == Total(cps) + cp.rowsWritten && LastId(cps + [cp]) == cp.lastRecordId
  {
    assert (cps + [cp])[..|cps|] == cps;
  }

  lemma TotalStep(cps: seq<Checkpoint>, n: nat)
    requires 1 <= n <= |cps|
    ensures Total(cps[..n]) == Total(cps[..n - 1]) + cps[n - 1].rowsWritten
    ensures LastId(cps[..n]) == cps[n - 1].lastRecordId
  {
    assert cps[..n] == cps[..n - 1] + [cps[n - 1]];
    TotalAppend(cps[..n - 1], cps[n - 1]);
  }
}
