/** What the checkpoint log always is, for any number of workers, any faults and any writes to the table. */
module LogSafety {
  import opened Common
  import opened Csv
  import opened RecordSource
  import opened Resume
  import opened Jobs
  import opened Protocol

  function Log(sh: Shared): seq<Checkpoint> {
    Ordered(sh.log)
  }

  /** Numbered 1..N, positive strictly increasing last ids within the snapshot, at least one row an entry,
      never more rows than asked for. */
  predicate LogOk(c: Config, cps: seq<Checkpoint>) {
    && ValidLog(cps)
    && (forall i :: 0 <= i < |cps| ==> cps[i].rowsWritten >= 1)
    && Total(cps) <= c.limit
    && LastId(cps) <= c.snapshotMaxId
  }

  /** The state was read from the log when it had `checkpointCount` entries. */
  predicate ReadFrom(cps: seq<Checkpoint>, state: ResumeState) {
    state.checkpointCount <= |cps| && state == Position(cps[..state.checkpointCount])
  }

  /** The worker's cursor, count and batch number are those of a prefix of the log. */
  predicate OnLog(cps: seq<Checkpoint>, batch: nat, cursor: nat, count: nat) {
    1 <= batch <= |cps| + 1 && cursor == LastId(cps[..batch - 1]) && count == Total(cps[..batch - 1])
  }

  predicate IsBatch(c: Config, cursor: nat, room: nat, rows: seq<Row>) {
    rows != [] && |rows| <= room && IdsWithin(rows, cursor, c.snapshotMaxId)
  }

  predicate IsMiscount(reason: Reason) {
    reason == WrongCount || reason == LogMismatch
  }

  predicate Miscounts(pc: Pc) {
    || (pc.Failing? && IsMiscount(pc.reason))
    || (pc.Ended? && pc.outcome.GaveUp? && IsMiscount(pc.outcome.reason))
  }

  predicate WorkerOk(c: Config, cps: seq<Checkpoint>, k: Worker) {
    && (k.pc.Reconciling? || k.pc.Correcting? ==> ReadFrom(cps, k.pc.state))
    && (IsBatching(k.pc) || k.pc.CrossChecking? ==> OnLog(cps, k.batch, k.cursor, k.count))
    && (k.pc.Fetching? ==> k.count < c.limit)
    && (HoldsBatch(k.pc) ==> IsBatch(c, k.cursor, BatchLimit(c, k), k.pc.rows))
    && (k.pc.CrossChecking? ==> k.count == c.limit)
    && (k.pc.Promoting? || k.pc.Assembling? ==> k.pc.batches <= |cps| && Total(cps[..k.pc.batches]) == c.limit)
    && !Miscounts(k.pc)
  }

  ghost predicate LogInv(c: Config, s: State) {
    && LogOk(c, Log(s.sh))
    && forall w :: w in s.workers ==> WorkerOk(c, Log(s.sh), s.workers[w])
  }

  // ---- One worker's request -------------------------------------------------------

  lemma OkAfterGrowth(c: Config, cps: seq<Checkpoint>, more: seq<Checkpoint>, k: Worker)
    requires WorkerOk(c, cps, k) && cps <= more
    ensures WorkerOk(c, more, k)
  {
    assert forall n :: 0 <= n <= |cps| ==> more[..n] == cps[..n];
  }

  lemma PrefixWithinLimit(c: Config, cps: seq<Checkpoint>, k: Worker)
    requires LogOk(c, cps) && OnLog(cps, k.batch, k.cursor, k.count)
    ensures k.count <= Total(cps) <= c.limit
  {
    TotalOfPrefix(cps, k.batch - 1);
  }

  /** A worker that finds its batch number free stands at the end of the log. */
  lemma FreeBatchIsNext(c: Config, sh: Shared, k: Worker)
    requires LogOk(c, Log(sh)) && OnLog(Log(sh), k.batch, k.cursor, k.count) && k.batch !in sh.log
    ensures k.batch == |sh.log| + 1 && k.cursor == LastId(Log(sh)) && k.count == Total(Log(sh))
  {
    hide Ordered;
    LogOkIsValid(c, Log(sh));
    KeysOfNumbered(sh.log);
    assert k.batch == |sh.log| + 1;
    assert Log(sh)[..k.batch - 1] == Log(sh);
  }

  lemma LogOkAppend(c: Config, cps: seq<Checkpoint>, cp: Checkpoint)
    requires LogOk(c, cps)
    requires cp.batchNumber == |cps| + 1 && LastId(cps) < cp.lastRecordId <= c.snapshotMaxId
    requires 1 <= cp.rowsWritten && Total(cps) + cp.rowsWritten <= c.limit
    ensures LogOk(c, cps + [cp])
    ensures Total(cps + [cp]) == Total(cps) + cp.rowsWritten && LastId(cps + [cp]) == cp.lastRecordId
  {
    var more := cps + [cp];
    assert more[..|cps|] == cps;
    forall i | 0 <= i < |more|
      ensures !IsFault(more, i)
    {
      assert more[..i] == cps[..i];
      if i < |cps| {
        assert !IsFault(cps, i);
      } else {
        assert cps[..i] == cps;
      }
    }
  }

  lemma CommitKeepsLog(c: Config, sh: Shared, k: Worker, rows: seq<Row>)
    requires LogOk(c, Log(sh)) && OnLog(Log(sh), k.batch, k.cursor, k.count)
    requires IsBatch(c, k.cursor, BatchLimit(c, k), rows) && k.batch !in sh.log
    ensures
      var sh', cp := Commit(sh, k, rows), Checkpoint(k.batch, Cursor(0, rows), |rows|);
      && Log(sh') == Log(sh) + [cp]
      && LogOk(c, Log(sh'))
      && OnLog(Log(sh'), k.batch + 1, Cursor(0, rows), k.count + |rows|)
  {
    hide Ordered, LogOk;
    FreeBatchIsNext(c, sh, k);
    var cp := Checkpoint(k.batch, Cursor(0, rows), |rows|);
    LogOkIsValid(c, Log(sh));
    AppendEntry(sh.log, BatchEntry(rows));
    LogOkAppend(c, Log(sh), cp);
    assert (Log(sh) + [cp])[..k.batch] == Log(sh) + [cp];
  }

  lemma LogOkIsValid(c: Config, cps: seq<Checkpoint>)
    requires LogOk(c, cps)
    ensures ValidLog(cps)
  {
  }

  lemma ResumeKeepsLog(c: Config, sh: Shared, k: Worker)
    requires LogOk(c, Log(sh)) && WorkerOk(c, Log(sh), k) && IsResuming(k.pc)
    ensures ActResume(sh, k).sh.log == sh.log
    ensures WorkerOk(c, Log(sh), ActResume(sh, k).k)
  {
    hide Ordered;
    var cps := Log(sh);
    LoadResumeIff(cps);
    assert cps[..|cps|] == cps;
  }

  lemma FetchKeepsLog(c: Config, sh: Shared, k: Worker)
    requires LogOk(c, Log(sh)) && WorkerOk(c, Log(sh), k) && k.pc.Fetching?
    ensures ActBatch(c, sh, k).sh.log == sh.log
    ensures WorkerOk(c, Log(sh), ActBatch(c, sh, k).k)
  {
    hide Ordered, IdsWithin, FetchRecordBatch, OnLog, LogOk;
    PageIsOrdered(sh.table, k.cursor, c.snapshotMaxId, BatchLimit(c, k));
  }

  lemma LoopHeadKeepsLog(c: Config, sh: Shared, k: Worker)
    requires LogOk(c, Log(sh)) && WorkerOk(c, Log(sh), k) && k.pc.LoopHead?
    ensures ActBatch(c, sh, k).sh.log == sh.log
    ensures WorkerOk(c, Log(sh), ActBatch(c, sh, k).k)
  {
    hide Ordered, OnLog, LogOk, IsBatch, ReadFrom;
    PrefixWithinLimit(c, Log(sh), k);
  }

  lemma UploadKeepsLog(c: Config, sh: Shared, k: Worker)
    requires WorkerOk(c, Log(sh), k) && (k.pc.Putting? || k.pc.Confirming?)
    ensures ActBatch(c, sh, k).sh.log == sh.log
    ensures WorkerOk(c, Log(sh), ActBatch(c, sh, k).k)
  {
    hide Ordered, IdsWithin, ReadFrom;
  }

  lemma BatchNotEmpty(c: Config, cursor: nat, room: nat, rows: seq<Row>)
    requires IsBatch(c, cursor, room, rows)
    ensures rows != []
  {
  }

  lemma CommitStepKeepsLog(c: Config, sh: Shared, k: Worker)
    requires LogOk(c, Log(sh)) && WorkerOk(c, Log(sh), k) && k.pc.Committing?
    ensures
      var e := ActBatch(c, sh, k);
      && LogOk(c, Log(e.sh)) && WorkerOk(c, Log(e.sh), e.k) && Log(sh) <= Log(e.sh)
  {
    hide Ordered, IsBatch, LogOk, Commit, OnLog, ReadFrom;
    BatchNotEmpty(c, k.cursor, BatchLimit(c, k), k.pc.rows);
    if k.batch !in sh.log {
      CommitKeepsLog(c, sh, k, k.pc.rows);
    }
  }

  lemma BatchKeepsLog(c: Config, sh: Shared, k: Worker)
    requires LogOk(c, Log(sh)) && WorkerOk(c, Log(sh), k) && IsBatching(k.pc)
    ensures
      var e := ActBatch(c, sh, k);
      && LogOk(c, Log(e.sh)) && WorkerOk(c, Log(e.sh), e.k) && Log(sh) <= Log(e.sh)
  {
    hide Ordered, WorkerOk, LogOk, ActBatch;
    match k.pc
    case LoopHead => LoopHeadKeepsLog(c, sh, k);
    case Fetching => FetchKeepsLog(c, sh, k);
    case Putting(rows) => UploadKeepsLog(c, sh, k);
    case Confirming(rows) => UploadKeepsLog(c, sh, k);
    case Committing(rows) => CommitStepKeepsLog(c, sh, k);
  }

  /** After a full count the log is exactly full, so the cross-check finds what it expects. */
  lemma FullLogLoads(c: Config, cps: seq<Checkpoint>, k: Worker)
    requires LogOk(c, cps) && OnLog(cps, k.batch, k.cursor, k.count) && k.count == c.limit
    ensures LoadResume(cps) == Success(Position(cps))
    ensures Total(cps) == c.limit && Total(cps[..|cps|]) == c.limit
  {
    hide OnLog;
    PrefixWithinLimit(c, cps, k);
    LoadResumeIff(cps);
    assert cps[..|cps|] == cps;
  }

  lemma PromotingOk(c: Config, cps: seq<Checkpoint>, k: Worker)
    requires Total(cps[..|cps|]) == c.limit
    ensures WorkerOk(c, cps, k.At(Promoting(|cps|)))
  {
    hide OnLog, IsBatch, ReadFrom, Total;
  }

  lemma CrossCheckLoads(c: Config, cps: seq<Checkpoint>, k: Worker)
    requires LogOk(c, cps) && WorkerOk(c, cps, k) && k.pc.CrossChecking?
    ensures LoadResume(cps) == Success(Position(cps)) && Total(cps[..|cps|]) == Total(cps) == c.limit
  {
    hide LogOk, OnLog, IsBatch, ReadFrom, LoadResume, Position, Total;
    FullLogLoads(c, cps, k);
  }

  lemma CrossCheckKeepsLog(c: Config, sh: Shared, k: Worker)
    requires LogOk(c, Log(sh)) && WorkerOk(c, Log(sh), k) && k.pc.CrossChecking?
    ensures ActAssemble(c, sh, k) == Effect(sh, k.At(Promoting(|Log(sh)|)))
    ensures WorkerOk(c, Log(sh), k.At(Promoting(|Log(sh)|)))
  {
    hide Ordered, LogOk, WorkerOk, LoadResume, Total, LastId, CsvHeader, Chunk;
    CrossCheckLoads(c, Log(sh), k);
    PromotingOk(c, Log(sh), k);
  }

  lemma AssembleKeepsLog(c: Config, sh: Shared, k: Worker)
    requires LogOk(c, Log(sh)) && WorkerOk(c, Log(sh), k) && IsAssembling(k.pc)
    ensures ActAssemble(c, sh, k).sh.log == sh.log
    ensures WorkerOk(c, Log(sh), ActAssemble(c, sh, k).k)
  {
    hide Ordered, LogOk, OnLog, IsBatch, ReadFrom, LoadResume, Total, Chunk, CsvHeader;
    if k.pc.CrossChecking? {
      CrossCheckKeepsLog(c, sh, k);
    }
  }

  /** Outside the loop and what surrounds it a worker holds nothing that the log must confirm. */
  predicate IsQuiet(pc: Pc) {
    && !pc.Reconciling? && !pc.Correcting? && !IsBatching(pc) && !IsAssembling(pc) && !Miscounts(pc)
  }

  lemma QuietIsOk(c: Config, cps: seq<Checkpoint>, k: Worker)
    requires IsQuiet(k.pc)
    ensures WorkerOk(c, cps, k)
  {
    hide OnLog, ReadFrom, IsBatch;
  }

  lemma ClaimIsQuiet(c: Config, sh: Shared, k: Worker)
    requires IsClaiming(k.pc)
    ensures ActClaim(c, sh, k).sh.log == sh.log && IsQuiet(ActClaim(c, sh, k).k.pc)
  {
  }

  lemma VerifyIsQuiet(c: Config, sh: Shared, k: Worker)
    requires IsVerifying(k.pc)
    ensures ActVerify(c, sh, k).sh.log == sh.log && IsQuiet(ActVerify(c, sh, k).k.pc)
  {
    hide AuditBody, IsReadable;
  }

  lemma CloseIsQuiet(c: Config, sh: Shared, k: Worker)
    requires IsQuiet(k.pc)
    ensures ActClose(c, sh, k).sh.log == sh.log && IsQuiet(ActClose(c, sh, k).k.pc)
  {
  }

  lemma OthersKeepLog(c: Config, sh: Shared, k: Worker)
    requires WorkerOk(c, Log(sh), k) && !IsResuming(k.pc) && !IsBatching(k.pc) && !IsAssembling(k.pc)
    ensures Act(c, sh, k).sh.log == sh.log
    ensures WorkerOk(c, Log(sh), Act(c, sh, k).k)
  {
    hide Ordered, OnLog, ReadFrom, IsBatch, ActClaim, ActVerify, ActClose;
    if IsClaiming(k.pc) {
      ClaimIsQuiet(c, sh, k);
    } else if IsVerifying(k.pc) {
      VerifyIsQuiet(c, sh, k);
    } else {
      CloseIsQuiet(c, sh, k);
    }
    QuietIsOk(c, Log(sh), Act(c, sh, k).k);
  }

  lemma ActKeepsLog(c: Config, sh: Shared, k: Worker)
    requires LogOk(c, Log(sh)) && WorkerOk(c, Log(sh), k)
    ensures
      var e := Act(c, sh, k);
      && LogOk(c, Log(e.sh)) && WorkerOk(c, Log(e.sh), e.k) && Log(sh) <= Log(e.sh)
  {
    hide Ordered, LogOk, WorkerOk, ActResume, ActBatch, ActAssemble, ActVerify, ActClaim, ActClose;
    if IsResuming(k.pc) {
      ResumeKeepsLog(c, sh, k);
    } else if IsBatching(k.pc) {
      BatchKeepsLog(c, sh, k);
    } else if IsAssembling(k.pc) {
      AssembleKeepsLog(c, sh, k);
    } else {
      OthersKeepLog(c, sh, k);
    }
  }

  lemma ThrownOk(c: Config, cps: seq<Checkpoint>, from: Pc, k: Worker)
    ensures WorkerOk(c, cps, Thrown(from, k))
    ensures WorkerOk(c, cps, k.At(Ended(Crashed)))
  {
  }

  lemma LuckKeepsLog(c: Config, sh: Shared, k: Worker, luck: Luck)
    requires LogOk(c, Log(sh)) && WorkerOk(c, Log(sh), k)
    ensures
      var e := ActWithLuck(c, sh, k, luck);
      && LogOk(c, Log(e.sh)) && WorkerOk(c, Log(e.sh), e.k) && Log(sh) <= Log(e.sh)
  {
    hide Ordered, LogOk, WorkerOk, Act, Thrown;
    ActKeepsLog(c, sh, k);
    ThrownOk(c, Log(sh), k.pc, k);
    ThrownOk(c, Log(Act(c, sh, k).sh), k.pc, Act(c, sh, k).k);
  }

  // ---- Every run --------------------------------------------------------------------

  lemma StepKeepsLog(c: Config, s: State, e: Event)
    requires LogInv(c, s)
    ensures LogInv(c, Step(c, s, e)) && Log(s.sh) <= Log(Step(c, s, e).sh)
  {
    hide Ordered, LogOk, WorkerOk, ActWithLuck, StepShared;
    var s' := Step(c, s, e);
    if e.Work? && e.w in s.workers {
      LuckKeepsLog(c, s.sh, s.workers[e.w], e.luck);
      forall w | w in s'.workers
        ensures WorkerOk(c, Log(s'.sh), s'.workers[w])
      {
        if w != e.w {
          OkAfterGrowth(c, Log(s.sh), Log(s'.sh), s.workers[w]);
        }
      }
    } else {
      SharedStepKeeps(c, s.sh, e);
      NewWorkerOk(c, Log(s.sh), if e.Start? then e.batchSize else 0);
    }
  }

  lemma NewWorkerOk(c: Config, cps: seq<Checkpoint>, batchSize: nat)
    ensures WorkerOk(c, cps, NewWorker(batchSize))
  {
  }

  lemma InitHasLog(c: Config, s: State)
    requires Init(c, s)
    ensures LogInv(c, s)
  {
    assert |Log(s.sh)| == 0;
  }

  lemma {:induction false} LogInvAlways(c: Config, s: State, events: seq<Event>)
    requires Init(c, s)
    ensures LogInv(c, Run(c, s, events))
  {
    hide LogInv, Step;
    if events == [] {
      InitHasLog(c, s);
    } else {
      LogInvAlways(c, s, events[..|events| - 1]);
      StepKeepsLog(c, Run(c, s, events[..|events| - 1]), events[|events| - 1]);
    }
  }

  /** In every reachable state, whatever happens to the table and however many workers overlap, the log is in
      order and within the limit, is never refused on loading, and neither "wrong row count" failure occurs. */
  lemma LogAlwaysOk(c: Config, s: State, events: seq<Event>)
    requires Init(c, s)
    ensures
      var s' := Run(c, s, events);
      && LogOk(c, Log(s'.sh))
      && LoadResume(Log(s'.sh)) == Success(Position(Log(s'.sh)))
      && forall w :: w in s'.workers ==> !Miscounts(s'.workers[w].pc)
  {
    hide Ordered, Run;
    LogInvAlways(c, s, events);
    LoadResumeIff(Log(Run(c, s, events).sh));
  }

  /** The log only grows, and only at its end. */
  lemma {:induction false} LogOnlyGrows(c: Config, s: State, before: seq<Event>, after: seq<Event>)
    requires Init(c, s)
    ensures Log(Run(c, s, before).sh) <= Log(Run(c, s, before + after).sh)
  {
    hide LogInv, Step, Ordered;
    if after == [] {
      assert before + after == before;
    } else {
      var last := |after| - 1;
      assert (before + after)[..|before + after| - 1] == before + after[..last];
      LogOnlyGrows(c, s, before, after[..last]);
      LogInvAlways(c, s, before + after[..last]);
      StepKeepsLog(c, Run(c, s, before + after[..last]), after[last]);
    }
  }

  // ---- Uploads ------------------------------------------------------------------------

  function Unsettled(workers: map<nat, Worker>): set<nat> {
    set w | w in workers && workers[w].unsettled
  }

  predicate SettledOk(k: Worker) {
    && (k.unsettled ==> k.pc.Confirming? || k.pc.Committing? || k.pc.Catching? || k.pc.Ended?)
    && (k.pc.Confirming? || k.pc.Committing? ==> k.unsettled)
  }

  /** Every upload was either checkpointed, or is the last one of a run that has not checkpointed it. */
  ghost predicate UploadsInv(s: State) {
    && s.sh.puts == |s.sh.log| + |Unsettled(s.workers)|
    && forall w :: w in s.workers ==> SettledOk(s.workers[w])
  }

  function Balance(sh: Shared, k: Worker): int {
    sh.puts - |sh.log| - (if k.unsettled then 1 else 0)
  }

  lemma BatchSettles(c: Config, sh: Shared, k: Worker)
    requires SettledOk(k) && IsBatching(k.pc)
    ensures SettledOk(ActBatch(c, sh, k).k) && Balance(ActBatch(c, sh, k).sh, ActBatch(c, sh, k).k) == Balance(sh, k)
  {
    hide FetchRecordBatch;
  }

  lemma ClaimSettles(c: Config, sh: Shared, k: Worker)
    requires SettledOk(k) && IsClaiming(k.pc)
    ensures ActClaim(c, sh, k).sh.puts == sh.puts && ActClaim(c, sh, k).sh.log == sh.log
    ensures ActClaim(c, sh, k).k.unsettled == k.unsettled && SettledOk(ActClaim(c, sh, k).k)
  {
  }

  lemma ResumeSettles(sh: Shared, k: Worker)
    requires SettledOk(k) && IsResuming(k.pc)
    ensures ActResume(sh, k).sh.puts == sh.puts && ActResume(sh, k).sh.log == sh.log
    ensures ActResume(sh, k).k.unsettled == k.unsettled && SettledOk(ActResume(sh, k).k)
  {
    hide Ordered, LoadResume;
  }

  lemma AssembleSettles(c: Config, sh: Shared, k: Worker)
    requires SettledOk(k) && IsAssembling(k.pc)
    ensures ActAssemble(c, sh, k).sh.puts == sh.puts && ActAssemble(c, sh, k).sh.log == sh.log
    ensures ActAssemble(c, sh, k).k.unsettled == k.unsettled && SettledOk(ActAssemble(c, sh, k).k)
  {
    hide Ordered, LoadResume;
  }

  lemma VerifySettles(c: Config, sh: Shared, k: Worker)
    requires SettledOk(k) && IsVerifying(k.pc)
    ensures ActVerify(c, sh, k).sh.puts == sh.puts && ActVerify(c, sh, k).sh.log == sh.log
    ensures ActVerify(c, sh, k).k.unsettled == k.unsettled && SettledOk(ActVerify(c, sh, k).k)
  {
    hide AuditBody, IsReadable;
  }

  lemma CloseSettles(c: Config, sh: Shared, k: Worker)
    requires SettledOk(k)
    ensures ActClose(c, sh, k).sh.puts == sh.puts && ActClose(c, sh, k).sh.log == sh.log
    ensures ActClose(c, sh, k).k.unsettled == k.unsettled && SettledOk(ActClose(c, sh, k).k)
  {
  }

  lemma OthersSettle(c: Config, sh: Shared, k: Worker)
    requires SettledOk(k) && !IsBatching(k.pc)
    ensures Act(c, sh, k).sh.puts == sh.puts && Act(c, sh, k).sh.log == sh.log
    ensures Act(c, sh, k).k.unsettled == k.unsettled && SettledOk(Act(c, sh, k).k)
  {
    hide SettledOk, ActClaim, ActResume, ActAssemble, ActVerify, ActClose;
    if IsClaiming(k.pc) {
      ClaimSettles(c, sh, k);
    } else if IsResuming(k.pc) {
      ResumeSettles(sh, k);
    } else if IsAssembling(k.pc) {
      AssembleSettles(c, sh, k);
    } else if IsVerifying(k.pc) {
      VerifySettles(c, sh, k);
    } else {
      CloseSettles(c, sh, k);
    }
  }

  lemma ActSettles(c: Config, sh: Shared, k: Worker, luck: Luck)
    requires SettledOk(k)
    ensures
      var e := ActWithLuck(c, sh, k, luck);
      SettledOk(e.k) && Balance(e.sh, e.k) == Balance(sh, k)
  {
    hide Act;
    if IsBatching(k.pc) {
      BatchSettles(c, sh, k);
      assert Act(c, sh, k) == ActBatch(c, sh, k) by {
        ActOfBatch(c, sh, k);
      }
    } else {
      OthersSettle(c, sh, k);
    }
  }

  lemma ActOfBatch(c: Config, sh: Shared, k: Worker)
    requires IsBatching(k.pc)
    ensures Act(c, sh, k) == ActBatch(c, sh, k)
  {
    hide ActClaim, ActResume, ActBatch, ActAssemble, ActVerify, ActClose;
  }

  lemma SwapCard(u: set<nat>, w: nat, keep: bool)
    ensures |(u - {w}) + (if keep then {w} else {})| == |u| - (if w in u then 1 else 0) + (if keep then 1 else 0)
  {
    assert u == (u - {w}) + (if w in u then {w} else {});
  }

  lemma UnsettledSet(workers: map<nat, Worker>, w: nat, k: Worker)
    ensures Unsettled(workers[w := k]) == (Unsettled(workers) - {w}) + (if k.unsettled then {w} else {})
    ensures w in Unsettled(workers) <==> w in workers && workers[w].unsettled
  {
  }

  lemma UnsettledAfter(workers: map<nat, Worker>, w: nat, k: Worker)
    ensures |Unsettled(workers[w := k])|
         == |Unsettled(workers)| - (if w in workers && workers[w].unsettled then 1 else 0)
            + (if k.unsettled then 1 else 0)
  {
    hide Unsettled;
    UnsettledSet(workers, w, k);
    SwapCard(Unsettled(workers), w, k.unsettled);
  }

  lemma WorkKeepsUploads(c: Config, s: State, w: nat, luck: Luck)
    requires UploadsInv(s) && w in s.workers
    ensures UploadsInv(Step(c, s, Work(w, luck)))
  {
    hide ActWithLuck, SettledOk, Unsettled;
    var e := ActWithLuck(c, s.sh, s.workers[w], luck);
    ActSettles(c, s.sh, s.workers[w], luck);
    UnsettledAfter(s.workers, w, e.k);
  }

  lemma NewIsSettled(batchSize: nat)
    ensures SettledOk(NewWorker(batchSize)) && !NewWorker(batchSize).unsettled
  {
  }

  lemma StartKeepsUploads(c: Config, s: State, w: nat, batchSize: nat)
    requires UploadsInv(s) && w !in s.workers
    ensures UploadsInv(Step(c, s, Start(w, batchSize)))
  {
    hide Unsettled, SettledOk, NewWorker, ActWithLuck, StepShared;
    NewIsSettled(batchSize);
    UnsettledAfter(s.workers, w, NewWorker(batchSize));
  }

  lemma StepKeepsUploads(c: Config, s: State, e: Event)
    requires UploadsInv(s)
    ensures UploadsInv(Step(c, s, e))
  {
    hide ActWithLuck, StepShared, Unsettled, SettledOk;
    if e.Work? {
      if e.w in s.workers {
        WorkKeepsUploads(c, s, e.w, e.luck);
      }
    } else if e.Start? {
      if e.w !in s.workers {
        StartKeepsUploads(c, s, e.w, e.batchSize);
      }
    } else {
      SharedStepKeeps(c, s.sh, e);
    }
  }

  /** Uploads are conserved, overlap or not: as many as there are checkpoints, plus one for every run whose
      last upload was not followed by its checkpoint. So a run wastes at most one upload. */
  lemma {:induction false} UploadsConserved(c: Config, s: State, events: seq<Event>)
    requires Init(c, s)
    ensures UploadsInv(Run(c, s, events))
    ensures Run(c, s, events).sh.puts <= |Run(c, s, events).sh.log| + |Run(c, s, events).workers|
  {
    if events == [] {
      assert Unsettled(s.workers) == {};
    } else {
      UploadsConserved(c, s, events[..|events| - 1]);
      StepKeepsUploads(c, Run(c, s, events[..|events| - 1]), events[|events| - 1]);
    }
    var workers := Run(c, s, events).workers;
    SubsetCard(Unsettled(workers), workers.Keys);
  }

  lemma {:induction false} SubsetCard(a: set<nat>, b: set<nat>)
    requires a <= b
    ensures |a| <= |b|
  {
    assert b == a + (b - a);
    assert |a + (b - a)| == |a| + |b - a|;
  }
}
