/** A checkpoint never runs ahead of its bytes: over every run, any overlap, any faults and a table
    rewritten at will. */
module Durability {
  import opened Common
  import opened Csv
  import opened RecordSource
  import opened Storage
  import opened Resume
  import opened Jobs
  import opened Protocol
  import opened Ownership
  import LogSafety

  /** Every checkpointed batch has its chunk in the store. */
  ghost predicate AllStored(c: Config, sh: Shared) {
    forall n :: n in sh.log ==> Chunk(c, sh, n).Some?
  }

  /** A confirmed upload is in the store. */
  predicate UploadStored(c: Config, sh: Shared, k: Worker) {
    k.pc.Confirming? || k.pc.Committing? ==> Chunk(c, sh, k.batch).Some?
  }

  ghost predicate StoredInv(c: Config, s: State) {
    AllStored(c, s.sh) && forall w :: w in s.workers ==> UploadStored(c, s.sh, s.workers[w])
  }

  /** A request that deletes chunks. */
  predicate IsDeletion(s: State, e: Event) {
    e.Work? && e.w in s.workers && IsDeleting(s.workers[e.w].pc) && (IsDone(e.luck) || e.luck.DeletesPage?)
  }

  /** No chunk is lost. */
  ghost predicate KeepsChunks(c: Config, sh: Shared, sh': Shared) {
    forall n: nat :: Chunk(c, sh, n).Some? ==> Chunk(c, sh', n).Some?
  }

  ghost predicate TurnStores(c: Config, sh: Shared, e: Effect) {
    KeepsChunks(c, sh, e.sh) && (AllStored(c, sh) ==> AllStored(c, e.sh)) && UploadStored(c, e.sh, e.k)
  }

  lemma SameStore(c: Config, sh: Shared, sh': Shared)
    requires sh'.objects == sh.objects && sh'.log == sh.log
    ensures KeepsChunks(c, sh, sh') && (AllStored(c, sh) ==> AllStored(c, sh'))
  {
    forall n: nat
      ensures Chunk(c, sh', n) == Chunk(c, sh, n)
    {
    }
  }

  lemma PutStores(c: Config, sh: Shared, n: nat, body: string)
    requires c.Valid()
    ensures
      var sh' := PutChunk(c, sh, n, body);
      KeepsChunks(c, sh, sh') && (AllStored(c, sh) ==> AllStored(c, sh')) && Chunk(c, sh', n).Some?
  {
    hide Chunk;
    forall m: nat
      ensures Chunk(c, PutChunk(c, sh, n, body), m) == if m == n then Some(body) else Chunk(c, sh, m)
    {
      ChunkAfterPut(c, sh, n, body, m);
    }
  }

  lemma PublishStores(c: Config, sh: Shared, file: string)
    requires c.Valid()
    ensures
      var sh' := Publish(c, sh, file);
      KeepsChunks(c, sh, sh') && (AllStored(c, sh) ==> AllStored(c, sh'))
  {
    hide Chunk, Final;
    forall m: nat
      ensures Chunk(c, Publish(c, sh, file), m) == Chunk(c, sh, m)
    {
      ChunkAfterPublish(c, sh, file, m);
    }
  }

  lemma CommitStores(c: Config, sh: Shared, k: Worker, rows: seq<Row>)
    requires rows != [] && Chunk(c, sh, k.batch).Some?
    ensures
      var sh' := Commit(sh, k, rows);
      KeepsChunks(c, sh, sh') && (AllStored(c, sh) ==> AllStored(c, sh'))
  {
    var sh' := Commit(sh, k, rows);
    forall n: nat
      ensures Chunk(c, sh', n) == Chunk(c, sh, n)
    {
    }
  }

  lemma BatchStores(c: Config, sh: Shared, k: Worker)
    requires c.Valid() && IsBatching(k.pc) && UploadStored(c, sh, k)
    ensures TurnStores(c, sh, ActBatch(c, sh, k))
  {
    hide AllStored, KeepsChunks, Chunk, FetchRecordBatch, SerializeChunk, PutChunk, Commit;
    SameStore(c, sh, sh);
    if k.pc.Putting? {
      PutStores(c, sh, k.batch, SerializeChunk(k.pc.rows));
    } else if k.pc.Committing? && k.pc.rows != [] {
      CommitStores(c, sh, k, k.pc.rows);
    }
  }

  lemma AssembleStores(c: Config, sh: Shared, k: Worker)
    requires c.Valid() && IsAssembling(k.pc)
    ensures TurnStores(c, sh, ActAssemble(c, sh, k))
  {
    hide AllStored, KeepsChunks, Chunk, LoadResume, Ordered, CsvHeader, Publish;
    SameStore(c, sh, sh);
    SameStore(c, sh, WriteStatus(sh, Verifying));
    if k.pc.Assembling? {
      PublishStores(c, sh, k.pc.written);
    }
  }

  lemma HoldsNoUpload(c: Config, sh: Shared, k: Worker)
    requires IsLight(k.pc)
    ensures UploadStored(c, sh, k)
  {
  }

  predicate KeepsObjects(sh: Shared, sh': Shared) {
    sh'.objects == sh.objects && sh'.log == sh.log
  }

  lemma OpeningKeepsObjects(c: Config, sh: Shared, k: Worker)
    ensures KeepsObjects(sh, ActClaim(c, sh, k).sh) && KeepsObjects(sh, ActResume(sh, k).sh)
  {
    hide LoadResume, Ordered;
  }

  lemma VerifyKeepsObjects(c: Config, sh: Shared, k: Worker)
    ensures KeepsObjects(sh, ActVerify(c, sh, k).sh)
  {
    hide AuditBody, IsReadable;
  }

  lemma CloseKeepsObjects(c: Config, sh: Shared, k: Worker)
    requires !IsDeleting(k.pc)
    ensures KeepsObjects(sh, ActClose(c, sh, k).sh)
  {
    hide DropChunks;
  }

  lemma EndingKeepsObjects(c: Config, sh: Shared, k: Worker)
    requires !IsBatching(k.pc) && !IsAssembling(k.pc) && !IsDeleting(k.pc)
    ensures Act(c, sh, k).sh.objects == sh.objects && Act(c, sh, k).sh.log == sh.log
  {
    hide ActClaim, ActResume, ActVerify, ActClose;
    OpeningKeepsObjects(c, sh, k);
    VerifyKeepsObjects(c, sh, k);
    CloseKeepsObjects(c, sh, k);
  }

  lemma OthersStore(c: Config, sh: Shared, k: Worker)
    requires !IsBatching(k.pc) && !IsAssembling(k.pc) && !IsDeleting(k.pc)
    ensures TurnStores(c, sh, Act(c, sh, k))
  {
    hide Act, AllStored, KeepsChunks, UploadStored, DropChunks;
    EndingKeepsObjects(c, sh, k);
    OtherActsAreLight(c, sh, k);
    SameStore(c, sh, Act(c, sh, k).sh);
    HoldsNoUpload(c, Act(c, sh, k).sh, Act(c, sh, k).k);
  }

  lemma ActStores(c: Config, sh: Shared, k: Worker)
    requires c.Valid() && UploadStored(c, sh, k) && !IsDeleting(k.pc)
    ensures TurnStores(c, sh, Act(c, sh, k))
  {
    hide TurnStores, UploadStored, ActClaim, ActResume, ActBatch, ActAssemble, ActVerify, ActClose;
    if IsBatching(k.pc) {
      BatchStores(c, sh, k);
    } else if IsAssembling(k.pc) {
      AssembleStores(c, sh, k);
    } else {
      OthersStore(c, sh, k);
    }
  }

  lemma LuckStores(c: Config, s: State, w: nat, luck: Luck)
    requires c.Valid() && w in s.workers && UploadStored(c, s.sh, s.workers[w]) && !IsDeletion(s, Work(w, luck))
    ensures TurnStores(c, s.sh, ActWithLuck(c, s.sh, s.workers[w], luck))
  {
    hide Act, DropPage, AllStored, KeepsChunks, Chunk;
    var k := s.workers[w];
    SameStore(c, s.sh, s.sh);
    if !IsDeleting(k.pc) {
      ActStores(c, s.sh, k);
      hide IsDeletion;
    }
  }

  lemma StaysStored(c: Config, sh: Shared, sh': Shared, k: Worker)
    requires UploadStored(c, sh, k) && KeepsChunks(c, sh, sh')
    ensures UploadStored(c, sh', k)
  {
  }

  lemma OthersStayStored(c: Config, s: State, sh': Shared)
    requires StoredInv(c, s) && KeepsChunks(c, s.sh, sh')
    ensures forall w :: w in s.workers ==> UploadStored(c, sh', s.workers[w])
  {
    hide AllStored, UploadStored, KeepsChunks;
    forall w | w in s.workers
      ensures UploadStored(c, sh', s.workers[w])
    {
      StaysStored(c, s.sh, sh', s.workers[w]);
    }
  }

  lemma WorkKeepsStored(c: Config, s: State, w: nat, luck: Luck)
    requires c.Valid() && StoredInv(c, s) && w in s.workers && !IsDeletion(s, Work(w, luck))
    ensures StoredInv(c, Step(c, s, Work(w, luck)))
  {
    hide AllStored, UploadStored, KeepsChunks, ActWithLuck, IsDeletion, Step;
    WorkIs(c, s, w, luck);
    LuckStores(c, s, w, luck);
    OthersStayStored(c, s, ActWithLuck(c, s.sh, s.workers[w], luck).sh);
  }

  lemma OutsideKeepsStore(c: Config, s: State, e: Event)
    requires !e.Work? && !e.Start?
    ensures
      var s' := Step(c, s, e);
      s'.workers == s.workers && KeepsChunks(c, s.sh, s'.sh) && (AllStored(c, s.sh) ==> AllStored(c, s'.sh))
  {
    hide StepShared, AuditBody, IsReadable, Final, Chunk, ActWithLuck;
    SharedStepKeeps(c, s.sh, e);
    if e.WriteQueued? {
      SameStore(c, s.sh, WriteStatus(s.sh, Queued));
    } else if e.Answer? && e.id in s.requests {
      SameStore(c, s.sh, WriteJob(s.sh, Answered(s.sh.job, s.requests[e.id], s.sh.now)));
    } else if e.Record? && e.id in s.audits {
      SameStore(c, s.sh, AddReport(s.sh, s.audits[e.id]));
    }
  }

  lemma StepKeepsStored(c: Config, s: State, e: Event)
    requires c.Valid() && StoredInv(c, s) && !IsDeletion(s, e)
    ensures StoredInv(c, Step(c, s, e))
  {
    hide AllStored, UploadStored, KeepsChunks, IsDeletion;
    if e.Work? && e.w in s.workers {
      WorkKeepsStored(c, s, e.w, e.luck);
    } else if e.Start? {
      hide StepShared, ActWithLuck;
      HoldsNoUpload(c, s.sh, NewWorker(e.batchSize));
    } else if e.Work? {
      NothingHappens(c, s, e);
    } else {
      hide Step;
      OutsideKeepsStore(c, s, e);
      OthersStayStored(c, s, Step(c, s, e).sh);
    }
  }

  ghost predicate NeverDeletes(c: Config, s: State, events: seq<Event>) {
    forall i :: 0 <= i < |events| ==> !IsDeletion(Run(c, s, events[..i]), events[i])
  }

  lemma {:induction false} StoredInvAlways(c: Config, s: State, events: seq<Event>)
    requires c.Valid() && Init(c, s) && NeverDeletes(c, s, events)
    ensures StoredInv(c, Run(c, s, events))
  {
    hide Step, IsDeletion;
    if events != [] {
      hide StoredInv, Init;
      var before := events[..|events| - 1];
      assert forall i :: 0 <= i < |before| ==> before[..i] == events[..i];
      StoredInvAlways(c, s, before);
      StepKeepsStored(c, Run(c, s, before), events[|events| - 1]);
    }
  }

  /** As long as no chunk was deleted on purpose, every checkpointed batch has its chunk in the store, whatever crashed,
      overlapped or was written to the table: the upload and its confirmation come before the checkpoint. */
  lemma CheckpointHasItsBytes(c: Config, s: State, events: seq<Event>, n: nat)
    requires c.Valid() && Init(c, s) && NeverDeletes(c, s, events)
    requires n in Run(c, s, events).sh.log
    ensures Chunk(c, Run(c, s, events).sh, n).Some?
  {
    hide Run, Init, IsDeletion, UploadStored, Chunk;
    StoredInvAlways(c, s, events);
  }

  // ---- The size is confirmed before the checkpoint ---------------------------------------------

  /** The store holds an object of the size of these rows' text, under the key of the worker's batch. */
  predicate SizeMatches(c: Config, sh: Shared, k: Worker, rows: seq<Row>) {
    var key := ChunkKey(c.jobId, k.batch);
    key in sh.objects && |sh.objects[key]| == |SerializeChunk(rows)|
  }

  lemma OnlyBatchesCommit(c: Config, sh: Shared, k: Worker)
    requires !IsBatching(k.pc)
    ensures !Act(c, sh, k).k.pc.Committing?
  {
    hide ActClaim, ActResume, ActAssemble, ActVerify, ActClose;
    OpeningCommitsNothing(c, sh, k);
    EndingCommitsNothing(c, sh, k);
  }

  lemma OpeningCommitsNothing(c: Config, sh: Shared, k: Worker)
    requires !IsBatching(k.pc)
    ensures !ActClaim(c, sh, k).k.pc.Committing? && !ActResume(sh, k).k.pc.Committing?
    ensures !ActClose(c, sh, k).k.pc.Committing?
  {
    hide LoadResume, Ordered, DropChunks, FinalKey;
  }

  lemma EndingCommitsNothing(c: Config, sh: Shared, k: Worker)
    requires !IsBatching(k.pc)
    ensures !ActAssemble(c, sh, k).k.pc.Committing? && !ActVerify(c, sh, k).k.pc.Committing?
  {
    hide LoadResume, Ordered, Chunk, Final, AuditBody, IsReadable, CsvHeader, Publish;
  }

  lemma BatchCommits(c: Config, sh: Shared, k: Worker, rows: seq<Row>)
    requires IsBatching(k.pc)
    ensures ActBatch(c, sh, k).k.pc == Committing(rows) <==> k.pc == Confirming(rows) && SizeMatches(c, sh, k, rows)
    ensures k.pc.Confirming? ==> ActBatch(c, sh, k).k.batch == k.batch
  {
    hide FetchRecordBatch, SerializeChunk, Commit, PutChunk;
  }

  /** A worker comes to the checkpoint of `rows` exactly by a confirming read that finds an object of their size. */
  lemma CheckpointNeedsSize(c: Config, sh: Shared, k: Worker, luck: Luck, rows: seq<Row>)
    requires !k.pc.Committing?
    ensures
      var e := ActWithLuck(c, sh, k, luck);
      && (e.k.pc == Committing(rows) <==> luck == Proceeds && k.pc == Confirming(rows) && SizeMatches(c, sh, k, rows))
      && (e.k.pc == Committing(rows) ==> e.k.batch == k.batch)
  {
    hide Act, DropPage, SizeMatches;
    if IsBatching(k.pc) {
      BatchCommits(c, sh, k, rows);
      LogSafety.ActOfBatch(c, sh, k);
    } else {
      OnlyBatchesCommit(c, sh, k);
    }
  }

  lemma WaitingToCommit(c: Config, sh: Shared, k: Worker, luck: Luck)
    requires k.pc.Committing? && ActWithLuck(c, sh, k, luck).k.pc.Committing?
    ensures ActWithLuck(c, sh, k, luck).k == k
  {
    hide Act, DropPage;
    LogSafety.ActOfBatch(c, sh, k);
    CommitsAtOnce(c, sh, k);
  }

  lemma CommitsAtOnce(c: Config, sh: Shared, k: Worker)
    requires k.pc.Committing?
    ensures !ActBatch(c, sh, k).k.pc.Committing?
  {
    hide Commit;
  }

  lemma OtherEventKeepsWorker(c: Config, s: State, e: Event, w: nat)
    requires w in Step(c, s, e).workers && !(e.Work? && e.w == w)
    ensures Step(c, s, e).workers[w].pc == Reading || (w in s.workers && Step(c, s, e).workers[w] == s.workers[w])
  {
    hide StepShared, ActWithLuck, AuditBody, IsReadable, Final;
  }

  /** At the start of event `m` worker `w` stood at the confirming read of `rows` as batch `n`, and found their size. */
  ghost predicate ConfirmedAt(c: Config, s: State, events: seq<Event>, w: nat, n: nat, rows: seq<Row>, m: nat)
    requires m < |events|
  {
    var before := Run(c, s, events[..m]);
    && events[m] == Work(w, Proceeds) && w in before.workers
    && before.workers[w].pc == Confirming(rows) && before.workers[w].batch == n
    && SizeMatches(c, before.sh, before.workers[w], rows)
  }

  lemma ConfirmedBefore(
    c: Config, s: State, most: seq<Event>, events: seq<Event>, w: nat, n: nat, rows: seq<Row>, m: nat)
    requires m < |most| < |events| && most == events[..|most|] && ConfirmedAt(c, s, most, w, n, rows, m)
    ensures ConfirmedAt(c, s, events, w, n, rows, m)
  {
    hide Run, SizeMatches;
    assert most[..m] == events[..m];
  }

  /** What the last event says about a worker at a checkpoint: it has just confirmed, or it was there before. */
  lemma JustConfirmed(c: Config, s: State, e: Event, w: nat, rows: seq<Row>)
    requires w in Step(c, s, e).workers && Step(c, s, e).workers[w].pc == Committing(rows)
    ensures w in s.workers && s.workers[w].batch == Step(c, s, e).workers[w].batch
    ensures s.workers[w].pc == Committing(rows)
      || (e == Work(w, Proceeds) && s.workers[w].pc == Confirming(rows) && SizeMatches(c, s.sh, s.workers[w], rows))
  {
    hide Step, SizeMatches, ActWithLuck;
    if e.Work? && e.w == w && w in s.workers {
      WorkIs(c, s, w, e.luck);
      if s.workers[w].pc.Committing? {
        WaitingToCommit(c, s.sh, s.workers[w], e.luck);
      } else {
        CheckpointNeedsSize(c, s.sh, s.workers[w], e.luck, rows);
      }
    } else if e.Work? && e.w == w {
      NothingHappens(c, s, e);
    } else {
      OtherEventKeepsWorker(c, s, e, w);
    }
  }

  /** Over every run: whoever is about to write a checkpoint has read back, at some earlier moment, an
      object of the right size under the chunk's key. */
  lemma {:induction false} CommitWasConfirmed(c: Config, s: State, events: seq<Event>, w: nat, rows: seq<Row>)
    returns (m: nat)
    requires Init(c, s) && w in Run(c, s, events).workers && Run(c, s, events).workers[w].pc == Committing(rows)
    ensures m < |events| && ConfirmedAt(c, s, events, w, Run(c, s, events).workers[w].batch, rows, m)
  {
    hide Run, Step, SizeMatches, ConfirmedAt;
    if events == [] {
      NobodyAtFirst(c, s);
    } else {
      var last := |events| - 1;
      var most := events[..last];
      RunOne(c, s, events, last);
      assert events[..last + 1] == events;
      var before := Run(c, s, most);
      JustConfirmed(c, before, events[last], w, rows);
      if before.workers[w].pc == Committing(rows) {
        m := CommitWasConfirmed(c, s, most, w, rows);
        ConfirmedBefore(c, s, most, events, w, before.workers[w].batch, rows, m);
      } else {
        m := last;
        ConfirmedNow(c, s, events, w, rows);
      }
    }
  }

  lemma NobodyAtFirst(c: Config, s: State)
    requires Init(c, s)
    ensures Run(c, s, []).workers == map[]
  {
  }

  lemma ConfirmedNow(c: Config, s: State, events: seq<Event>, w: nat, rows: seq<Row>)
    requires events != [] && events[|events| - 1] == Work(w, Proceeds)
    requires
      var before := Run(c, s, events[..|events| - 1]);
      && w in before.workers && before.workers[w].pc == Confirming(rows)
      && SizeMatches(c, before.sh, before.workers[w], rows)
    ensures
      var before := Run(c, s, events[..|events| - 1]);
      ConfirmedAt(c, s, events, w, before.workers[w].batch, rows, |events| - 1)
  {
    hide Run, SizeMatches;
  }

  // ---- Deletion comes only with a terminal status ----------------------------------------------

  ghost predicate NobodyDeletes(s: State) {
    forall w :: w in s.workers ==> !IsDeleting(s.workers[w].pc)
  }

  lemma OpeningDeletesNothing(c: Config, sh: Shared, k: Worker)
    ensures IsClaiming(k.pc) ==> !IsDeleting(ActClaim(c, sh, k).k.pc)
    ensures IsResuming(k.pc) ==> !IsDeleting(ActResume(sh, k).k.pc)
    ensures IsBatching(k.pc) ==> !IsDeleting(ActBatch(c, sh, k).k.pc)
  {
    hide LoadResume, Ordered, FetchRecordBatch, Chunk;
  }

  lemma EndingDeletesNothing(c: Config, sh: Shared, k: Worker)
    ensures IsAssembling(k.pc) ==> !IsDeleting(ActAssemble(c, sh, k).k.pc)
    ensures IsVerifying(k.pc) ==> !IsDeleting(ActVerify(c, sh, k).k.pc)
  {
    hide LoadResume, Ordered, Chunk, Final, AuditBody, IsReadable, CsvHeader, Publish;
  }

  lemma CloseDeletesAtEnd(c: Config, sh: Shared, k: Worker)
    requires !IsDeleting(k.pc) && IsDeleting(ActClose(c, sh, k).k.pc)
    ensures IsTerminal(ActClose(c, sh, k).sh.job.status)
  {
    hide DropChunks;
  }

  lemma DeletionNeedsEnd(c: Config, sh: Shared, k: Worker)
    requires !IsDeleting(k.pc) && IsDeleting(Act(c, sh, k).k.pc)
    ensures IsTerminal(Act(c, sh, k).sh.job.status)
  {
    hide IsTerminal, ActClaim, ActResume, ActBatch, ActAssemble, ActVerify, ActClose;
    OpeningDeletesNothing(c, sh, k);
    EndingDeletesNothing(c, sh, k);
    CloseDeletesAtEnd(c, sh, k);
  }

  lemma LuckNeedsEnd(c: Config, sh: Shared, k: Worker, luck: Luck)
    requires !IsDeleting(k.pc) && IsDeleting(ActWithLuck(c, sh, k, luck).k.pc)
    ensures IsTerminal(ActWithLuck(c, sh, k, luck).sh.job.status)
  {
    hide Act, DropPage;
    if luck == Proceeds {
      DeletionNeedsEnd(c, sh, k);
    }
  }

  lemma StepNeedsEnd(c: Config, s: State, e: Event)
    requires NobodyDeletes(s) && !IsTerminal(Step(c, s, e).sh.job.status)
    ensures NobodyDeletes(Step(c, s, e))
  {
    hide ActWithLuck, StepShared, IsDeleting, IsTerminal;
    if e.Work? && e.w in s.workers {
      WorkIs(c, s, e.w, e.luck);
      if IsDeleting(ActWithLuck(c, s.sh, s.workers[e.w], e.luck).k.pc) {
        LuckNeedsEnd(c, s.sh, s.workers[e.w], e.luck);
      }
    } else if e.Start? {
      NewDeletesNothing(e.batchSize);
    }
  }

  lemma NewDeletesNothing(batchSize: nat)
    ensures !IsDeleting(NewWorker(batchSize).pc)
  {
  }

  ghost predicate NeverEnds(c: Config, s: State, events: seq<Event>) {
    forall n :: 0 <= n <= |events| ==> !IsTerminal(Run(c, s, events[..n]).sh.job.status)
  }

  lemma {:induction false} NobodyDeletesYet(c: Config, s: State, events: seq<Event>, n: nat)
    requires Init(c, s) && NeverEnds(c, s, events) && n <= |events|
    ensures NobodyDeletes(Run(c, s, events[..n]))
  {
    hide Step, IsTerminal;
    if n > 0 {
      hide Init, NobodyDeletes;
      NobodyDeletesYet(c, s, events, n - 1);
      RunOne(c, s, events, n - 1);
      StepNeedsEnd(c, Run(c, s, events[..n - 1]), events[n - 1]);
    }
  }

  /** Until the job has been completed or cancelled nothing is deleted, so nothing checkpointed is missing. */
  lemma NothingIsLostBeforeTheEnd(c: Config, s: State, events: seq<Event>)
    requires c.Valid() && Init(c, s) && NeverEnds(c, s, events)
    ensures NeverDeletes(c, s, events)
    ensures AllStored(c, Run(c, s, events).sh)
  {
    hide Run, Init, NeverEnds, IsDeleting, AllStored, UploadStored;
    forall i | 0 <= i < |events|
      ensures !IsDeletion(Run(c, s, events[..i]), events[i])
    {
      NobodyDeletesYet(c, s, events, i);
    }
    StoredInvAlways(c, s, events);
  }
}
