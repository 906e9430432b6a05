/** Getting an export going again: what a sweep, a resume and a cancellation lead to. */
module Recovery {
  import opened Common
  import opened RecordSource
  import opened Storage
  import opened Resume
  import opened Jobs
  import opened Protocol
  import opened LogSafety
  import opened Uninterrupted
  import opened Ownership
  import DataSafety
  import Delivery
  import Durability
  import Outcomes
  import Runner

  lemma StoredChunks(c: Config, s: State, events: seq<Event>)
    requires c.Valid() && Init(c, s) && Durability.NeverEnds(c, s, events)
    ensures
      var sh := Run(c, s, events).sh;
      forall n: nat :: 1 <= n <= |Log(sh)| ==> Chunk(c, sh, n).Some?
  {
    hide Run, Init, Durability.NeverEnds, Chunk, Ordered, ValidLog, Durability.NeverDeletes;
    var sh := Run(c, s, events).sh;
    Durability.NothingIsLostBeforeTheEnd(c, s, events);
    LogAlwaysOk(c, s, events);
    KeysOfNumbered(sh.log);
  }

  /** Over a stable table, as long as a job has been neither completed nor cancelled: whenever it can be claimed and is
      not flagged, the next worker left alone delivers it, whatever overlapped or crashed before. */
  lemma UnfinishedJobIsDelivered(c: Config, t: Table, size: nat, s: State, events: seq<Event>, w: nat) returns (n: nat)
    requires Delivery.Assumptions(c, t, NewWorker(size)) && Init(c, s) && DataSafety.IsStable(c, t, s.sh.table)
    requires DataSafety.IsStableRun(c, t, size, events) && Durability.NeverEnds(c, s, events)
    requires
      var s' := Run(c, s, events);
      IsClaimable(s'.sh.job, s'.sh.now - c.stallTimeout) && !s'.sh.job.cancelRequested && w !in s'.workers
    ensures Delivery.Delivers(c, t, Run(c, s, events + Delivery.LeftAlone(w, size, n)), w)
  {
    hide Run, Init, DataSafety.HasTarget, Delivery.ReadsDecimals, DataSafety.IsStable, DataSafety.IsStableRun;
    hide Durability.NeverEnds, Delivery.LeftAlone, Delivery.Delivers, IsClaimable, Chunk, Ordered;
    StoredChunks(c, s, events);
    n := Delivery.DeliversAfterOverlap(c, t, size, s, events, w);
  }

  /** What the answer to a resume request leaves in the row: the cancel flag is gone, progress, file key and start time
      stay, and any worker may claim the job. */
  lemma ResumeFreesTheJob(c: Config, s: State, id: nat)
    requires id in s.requests && s.requests[id].kind == AskResume
    ensures
      var before, after := s.sh.job, Step(c, s, Answer(id)).sh.job;
      && after.status == Resuming && !after.cancelRequested && after.updatedAt == s.sh.now
      && after.lastExportedId == before.lastExportedId && after.exportedRowCount == before.exportedRowCount
      && after.fileKey == before.fileKey && after.startedAt == before.startedAt
      && forall cutoff :: IsClaimable(after, cutoff)
  {
  }

  /** What the answer to a cancel request leaves: the flag is set, the status is CANCELLED unless the job was seen
      running, and nothing else changes. */
  lemma CancelFlagsTheJob(c: Config, s: State, id: nat)
    requires id in s.requests && s.requests[id].kind == AskCancel
    ensures
      var before, after := s.sh.job, Step(c, s, Answer(id)).sh.job;
      && after.status == (if s.requests[id].seen.status == Running then before.status else Cancelled)
      && after.cancelRequested && after.updatedAt == s.sh.now
      && after.lastExportedId == before.lastExportedId && after.exportedRowCount == before.exportedRowCount
      && after.fileKey == before.fileKey && after.startedAt == before.startedAt
  {
  }

  lemma AnswerGoesOn(c: Config, s: State, events: seq<Event>, id: nat)
    requires Durability.NeverEnds(c, s, events)
    requires id in Run(c, s, events).requests && Run(c, s, events).requests[id].kind == AskResume
    ensures Durability.NeverEnds(c, s, events + [Answer(id)])
    ensures Run(c, s, events + [Answer(id)]) == Step(c, Run(c, s, events), Answer(id))
  {
    hide Run, Step;
    var more := events + [Answer(id)];
    ResumeFreesTheJob(c, Run(c, s, events), id);
    RunOne(c, s, more, |events|);
    assert more[..|events| + 1] == more;
    forall n | 0 <= n <= |more|
      ensures !IsTerminal(Run(c, s, more[..n]).sh.job.status)
    {
      if n <= |events| {
        assert more[..n] == events[..n];
      }
    }
    assert more[..|events|] == events[..|events|] == events;
  }

  /** A user's resume gets an unfinished export delivered, even one that had been flagged for cancellation: once the
      request is answered, the next worker left alone completes it. */
  lemma ResumedJobIsDelivered(c: Config, t: Table, size: nat, s: State, events: seq<Event>, id: nat, w: nat)
    returns (n: nat)
    requires Delivery.Assumptions(c, t, NewWorker(size)) && Init(c, s) && DataSafety.IsStable(c, t, s.sh.table)
    requires DataSafety.IsStableRun(c, t, size, events) && Durability.NeverEnds(c, s, events)
    requires id in Run(c, s, events).requests && Run(c, s, events).requests[id].kind == AskResume
    requires w !in Run(c, s, events).workers
    ensures Delivery.Delivers(c, t, Run(c, s, events + [Answer(id)] + Delivery.LeftAlone(w, size, n)), w)
  {
    hide Run, Init, DataSafety.HasTarget, Delivery.ReadsDecimals, DataSafety.IsStable, IsClaimable;
    hide Durability.NeverEnds, Delivery.LeftAlone, Delivery.Delivers;
    AnswerGoesOn(c, s, events, id);
    ResumeFreesTheJob(c, Run(c, s, events), id);
    AnswerKeepsWorkers(c, Run(c, s, events), id);
    hide Step;
    n := UnfinishedJobIsDelivered(c, t, size, s, events + [Answer(id)], w);
  }

  lemma AnswerKeepsWorkers(c: Config, s: State, id: nat)
    ensures Step(c, s, Answer(id)).workers == s.workers
  {
    hide StepShared, ActWithLuck;
  }

  // ---- A crash, a timeout, a sweep ------------------------------------------------------------

  lemma {:induction false} TicksPass(c: Config, s: State, n: nat)
    ensures Run(c, s, Repeat(Tick, n)) == s.(sh := s.sh.(now := s.sh.now + n))
  {
    if n > 0 {
      TicksPass(c, s, n - 1);
      assert Repeat(Tick, n)[..n - 1] == Repeat(Tick, n - 1);
    }
  }

  lemma SweepInterrupts(c: Config, s: State)
    requires s.sh.job.status == Running && s.sh.job.updatedAt < s.sh.now - c.stallTimeout
    ensures
      var before, after := s.sh.job, Step(c, s, Sweep(s.sh.now)).sh.job;
      && after.status == Interrupted && after.cancelRequested == before.cancelRequested
      && after.lastExportedId == before.lastExportedId && after.exportedRowCount == before.exportedRowCount
      && after.fileKey == before.fileKey && after.startedAt == before.startedAt
      && (forall cutoff :: IsClaimable(after, cutoff))
  {
  }

  lemma NobodyOwnsAfterCrash(c: Config, s: State, w: nat)
    requires SingleOwner(s) && IsOwner(s, w)
    ensures !HasOwner(Step(c, s, Work(w, Crashes)))
    ensures Step(c, s, Work(w, Crashes)).sh == s.sh
  {
    hide Act, DropPage;
    OwnerIsAlone(s, w);
  }

  /** The only owner crashes and the stall timeout passes: one sweep makes the job INTERRUPTED, with its progress as it
      was, and from then on a worker may claim it and a user may resume it. */
  lemma CrashedJobIsInterrupted(c: Config, s: State, w: nat, ticks: nat, id: nat)
    requires SingleOwner(s) && IsOwner(s, w) && s.sh.job.status == Running && s.sh.job.updatedAt <= s.sh.now
    requires ticks > c.stallTimeout && id !in s.requests
    ensures
      var idle := Run(c, Step(c, s, Work(w, Crashes)), Repeat(Tick, ticks));
      var swept := Step(c, idle, Sweep(idle.sh.now));
      && !HasOwner(swept) && swept.sh.job.status == Interrupted
      && swept.sh.job.lastExportedId == s.sh.job.lastExportedId
      && swept.sh.job.exportedRowCount == s.sh.job.exportedRowCount && swept.sh.log == s.sh.log
      && (forall cutoff :: IsClaimable(swept.sh.job, cutoff))
      && id in Step(c, swept, Ask(id, AskResume)).requests
  {
    hide Run, ActWithLuck, HasOwner, IsClaimable;
    var crashed := Step(c, s, Work(w, Crashes));
    NobodyOwnsAfterCrash(c, s, w);
    TicksPass(c, crashed, ticks);
    var idle := Run(c, crashed, Repeat(Tick, ticks));
    SweepInterrupts(c, idle);
    SameOwners(crashed, Step(c, idle, Sweep(idle.sh.now)));
  }

  // ---- A flag stops the run --------------------------------------------------------------------

  /** A pickup of a flagged job that has not ended cancels it and does nothing else. */
  lemma FlaggedPickupCancels(c: Config, sh: Shared, size: nat)
    requires sh.job.cancelRequested && sh.job.status != Completed && sh.job.status != Cancelled
    ensures
      var e := RunAlone(c, sh, NewWorker(size));
      && e.k.pc == Ended(WasCancelled) && e.sh.job.status == Cancelled
      && e.sh.log == sh.log && e.sh.objects == sh.objects && e.sh.reports == sh.reports
  {
    hide RunAlone;
    Runner.EarlyExitRuns(c, sh, size);
  }

  /** A worker that comes to the loop with rows still to write and the flag set cancels the job and removes its chunks;
      the checkpoints and the final object stay. */
  lemma FlagStopsTheLoop(c: Config, sh: Shared, k: Worker)
    requires c.Valid() && k.pc.LoopHead? && k.count < c.limit && sh.job.cancelRequested
    ensures
      var e := RunAlone(c, sh, k);
      && e.k.pc == Ended(WasCancelled) && e.sh.job.status == Cancelled
      && Outcomes.HasNoChunks(c, e.sh) && Final(c, e.sh) == Final(c, sh) && e.sh.log == sh.log
  {
    hide RunAlone, DropChunks, Final;
    Runner.CancelRuns(c, sh, k);
    Outcomes.DropKnows(c, WriteStatus(sh, Cancelled));
    DropKeepsRow(c, WriteStatus(sh, Cancelled));
    ChunkAfterDrop(c, WriteStatus(sh, Cancelled), 0);
    FinalIgnoresRow(c, sh);
  }

  lemma FinalIgnoresRow(c: Config, sh: Shared)
    ensures Final(c, WriteStatus(sh, Cancelled)) == Final(c, sh)
  {
  }
}
