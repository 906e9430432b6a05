/** When a COMPLETED or CANCELLED job stops being so, and a run in which it does. */
module Terminal {
  import opened Common
  import opened RecordSource
  import opened Storage
  import opened Resume
  import opened Verification
  import opened Jobs
  import opened Protocol
  import opened Uninterrupted
  import opened Ownership
  import opened Orderly
  import DataSafety
  import Delivery
  import LogSafety
  import Outcomes

  /** The writes that put another status over a terminal one. */
  predicate Overwrites(s: State, e: Event) {
    match e
    case WriteQueued => !s.queued
    case Answer(id) =>
      id in s.requests && (
        s.requests[id].kind == AskResume || (s.requests[id].seen.status != Running && s.sh.job.status == Completed))
    case Work(w, luck) =>
      w in s.workers && IsDone(luck) && (
        match s.workers[w].pc
        case CancellingEarly => s.sh.job.status == Completed
        case Cancelling => s.sh.job.status == Completed
        case Completing => s.sh.job.status == Cancelled
        case Promoting(_) => true
        case Failing(_) => true
        case Catching => true
        case _ => false)
    case _ => false
  }

  predicate SameStatus(a: JobRow, b: JobRow) {
    a.status == b.status
  }

  /** What a worker's request does to a terminal status. */
  lemma OpeningStatus(c: Config, sh: Shared, k: Worker)
    requires IsTerminal(sh.job.status) && (IsClaiming(k.pc) || IsResuming(k.pc))
    ensures SameStatus(Act(c, sh, k).sh.job, sh.job) <==> !(k.pc.CancellingEarly? && sh.job.status == Completed)
  {
    hide ActBatch, ActAssemble, ActVerify, ActClose, LoadResume, Ordered;
  }

  lemma BatchStatus(c: Config, sh: Shared, k: Worker)
    requires IsBatching(k.pc)
    ensures SameStatus(ActBatch(c, sh, k).sh.job, sh.job)
  {
    hide FetchRecordBatch;
  }

  lemma AssembleStatus(c: Config, sh: Shared, k: Worker)
    requires IsTerminal(sh.job.status) && IsAssembling(k.pc)
    ensures SameStatus(ActAssemble(c, sh, k).sh.job, sh.job) <==> !k.pc.Promoting?
  {
    hide LoadResume, Ordered, Chunk;
  }

  lemma VerifyStatus(c: Config, sh: Shared, k: Worker)
    requires IsVerifying(k.pc)
    ensures SameStatus(ActVerify(c, sh, k).sh.job, sh.job)
  {
    hide AuditBody, IsReadable, Final;
  }

  predicate CloseOverwrites(sh: Shared, pc: Pc) {
    || pc.Failing? || pc.Catching?
    || (pc.Cancelling? && sh.job.status == Completed) || (pc.Completing? && sh.job.status == Cancelled)
  }

  lemma CloseStatus(c: Config, sh: Shared, k: Worker)
    requires IsTerminal(sh.job.status)
    requires !IsClaiming(k.pc) && !IsResuming(k.pc) && !IsBatching(k.pc) && !IsAssembling(k.pc) && !IsVerifying(k.pc)
    ensures SameStatus(ActClose(c, sh, k).sh.job, sh.job) <==> !CloseOverwrites(sh, k.pc)
  {
    hide DropChunks;
    DropKeepsRow(c, sh);
  }

  lemma ActStatus(c: Config, s: State, w: nat)
    requires w in s.workers && IsTerminal(s.sh.job.status)
    ensures SameStatus(Act(c, s.sh, s.workers[w]).sh.job, s.sh.job) <==> !Overwrites(s, Work(w, Proceeds))
  {
    hide ActClaim, ActResume, ActBatch, ActAssemble, ActVerify, ActClose, SameStatus;
    var k := s.workers[w];
    if IsClaiming(k.pc) || IsResuming(k.pc) {
      OpeningStatus(c, s.sh, k);
    } else if IsBatching(k.pc) {
      BatchStatus(c, s.sh, k);
    } else if IsAssembling(k.pc) {
      AssembleStatus(c, s.sh, k);
    } else if IsVerifying(k.pc) {
      VerifyStatus(c, s.sh, k);
    } else {
      CloseStatus(c, s.sh, k);
    }
  }

  lemma WorkStatus(c: Config, s: State, w: nat, luck: Luck)
    requires w in s.workers && IsTerminal(s.sh.job.status)
    ensures ActWithLuck(c, s.sh, s.workers[w], luck).sh.job.status != s.sh.job.status <==> Overwrites(s, Work(w, luck))
  {
    hide Act, DropPage;
    ActStatus(c, s, w);
    if luck.DeletesPage? {
      PageKeepsRow(c, s.sh, luck.keys);
    }
  }

  lemma SharedStatus(c: Config, sh: Shared, e: Event)
    requires IsTerminal(sh.job.status)
    ensures SameStatus(StepShared(c, sh, e).job, sh.job)
  {
    hide SameOwnObjects;
  }

  lemma OutsideStatus(c: Config, s: State, e: Event)
    requires IsTerminal(s.sh.job.status) && !e.Work?
    ensures Step(c, s, e).sh.job.status != s.sh.job.status <==> Overwrites(s, e)
  {
    hide StepShared, AuditBody, IsReadable, Final, ActWithLuck;
    SharedStatus(c, s.sh, e);
  }

  /** A step changes a terminal status exactly when it is one of these writes; no invariant is needed. */
  lemma TerminalChangesIff(c: Config, s: State, e: Event)
    requires IsTerminal(s.sh.job.status)
    ensures Step(c, s, e).sh.job.status != s.sh.job.status <==> Overwrites(s, e)
  {
    hide Step, ActWithLuck;
    if e.Work? {
      if e.w in s.workers {
        WorkIs(c, s, e.w, e.luck);
        WorkStatus(c, s, e.w, e.luck);
      } else {
        NothingHappens(c, s, e);
      }
    } else {
      OutsideStatus(c, s, e);
    }
  }

  ghost predicate IsFinalRun(c: Config, s: State, events: seq<Event>) {
    forall i :: 0 <= i < |events| && IsTerminal(Run(c, s, events[..i]).sh.job.status) ==>
      Run(c, s, events).sh.job.status == Run(c, s, events[..i]).sh.job.status
  }

  ghost predicate NeverOverwrites(c: Config, s: State, events: seq<Event>) {
    forall i :: 0 <= i < |events| && IsTerminal(Run(c, s, events[..i]).sh.job.status) ==>
      !Overwrites(Run(c, s, events[..i]), events[i])
  }

  ghost predicate AllFinal(c: Config, s: State, events: seq<Event>) {
    forall n :: 0 <= n <= |events| ==> IsFinalRun(c, s, events[..n])
  }

  lemma FinalStep(c: Config, s: State, events: seq<Event>, i: nat)
    requires i < |events| && AllFinal(c, s, events) && IsTerminal(Run(c, s, events[..i]).sh.job.status)
    ensures !Overwrites(Run(c, s, events[..i]), events[i])
  {
    hide Run, Step, Overwrites, IsTerminal;
    var longer := events[..i + 1];
    assert IsFinalRun(c, s, longer) && longer[..i] == events[..i];
    RunOne(c, s, events, i);
    TerminalChangesIff(c, Run(c, s, events[..i]), events[i]);
  }

  lemma {:induction false} NeverOverwritesIsFinal(c: Config, s: State, events: seq<Event>)
    requires NeverOverwrites(c, s, events)
    ensures IsFinalRun(c, s, events)
  {
    hide Run, Step, Overwrites, IsTerminal;
    if events != [] {
      var last := |events| - 1;
      var before := events[..last];
      assert forall i :: 0 <= i < last ==> before[..i] == events[..i];
      NeverOverwritesIsFinal(c, s, before);
      RunOne(c, s, events, last);
      assert events[..last + 1] == events;
      if IsTerminal(Run(c, s, before).sh.job.status) {
        TerminalChangesIff(c, Run(c, s, before), events[last]);
      }
    }
  }

  /** Over every run, with no assumption: terminal statuses are final, however long the run goes on, exactly when none
      of the writes above meets one. */
  lemma TerminalExactly(c: Config, s: State, events: seq<Event>)
    ensures AllFinal(c, s, events) <==> NeverOverwrites(c, s, events)
  {
    hide Run, Overwrites, IsTerminal;
    if AllFinal(c, s, events) {
      forall i | 0 <= i < |events| && IsTerminal(Run(c, s, events[..i]).sh.job.status)
        ensures !Overwrites(Run(c, s, events[..i]), events[i])
      {
        FinalStep(c, s, events, i);
      }
    }
    if NeverOverwrites(c, s, events) {
      forall n | 0 <= n <= |events|
        ensures IsFinalRun(c, s, events[..n])
      {
        assert forall i :: 0 <= i < n ==> events[..n][..i] == events[..i];
        NeverOverwritesIsFinal(c, s, events[..n]);
      }
    }
  }

  lemma NoLapseKeepsTerminal(c: Config, s: State, events: seq<Event>, i: nat)
    requires Init(c, s) && HasNoLapse(c, s, events) && i < |events|
    requires IsTerminal(Run(c, s, events[..i]).sh.job.status)
    ensures Step(c, Run(c, s, events[..i]), events[i]).sh.job.status == Run(c, s, events[..i]).sh.job.status
  {
    hide Run, Init, IsLapse, IsTerminal, Step, SingleOwner;
    NoLapseIsSafe(c, s, events);
    assert IsSafeStep(Run(c, s, events[..i]), Step(c, Run(c, s, events[..i]), events[i]));
  }

  /** Over every run: a terminal status is overwritten only after, or by, a step the code leaves open. */
  lemma OverwriteFollowsLapse(c: Config, s: State, events: seq<Event>, i: nat)
    requires Init(c, s) && i < |events|
    requires IsTerminal(Run(c, s, events[..i]).sh.job.status) && Overwrites(Run(c, s, events[..i]), events[i])
    ensures exists j :: 0 <= j <= i && IsLapse(c, Run(c, s, events[..j]), events[j])
  {
    hide Run, Init, IsLapse, Overwrites, IsTerminal, Step;
    var before := events[..i + 1];
    assert forall j :: 0 <= j <= i ==> before[..j] == events[..j];
    TerminalChangesIff(c, Run(c, s, events[..i]), events[i]);
    if HasNoLapse(c, s, before) {
      NoLapseKeepsTerminal(c, s, before, i);
    }
  }

  /** Over every orderly run: only after, or by, one of the three hazards. */
  lemma OverwriteFollowsHazard(c: Config, s: State, events: seq<Event>, i: nat)
    requires Init(c, s) && IsOrderlyRun(c, s, events) && i < |events|
    requires IsTerminal(Run(c, s, events[..i]).sh.job.status) && Overwrites(Run(c, s, events[..i]), events[i])
    ensures exists j :: 0 <= j <= i && IsHazard(Run(c, s, events[..j]), events[j])
  {
    hide Run, Init, IsHazard, IsDisorder, Overwrites, IsOrderly, IsTerminal;
    var before := events[..i + 1];
    assert forall j :: 0 <= j <= i ==> before[..j] == events[..j];
    PrefixRun(c, s, events, i + 1);
    OverwriteFollowsLapse(c, s, events, i);
    OrderlyLapses(c, s, before);
  }

  /** So completed and cancelled jobs stay so through every run without a lapse. */
  lemma TerminalIsFinal(c: Config, s: State, events: seq<Event>)
    requires Init(c, s) && HasNoLapse(c, s, events)
    ensures AllFinal(c, s, events)
  {
    hide Run, Init, IsLapse, Overwrites, IsTerminal;
    forall i | 0 <= i < |events| && IsTerminal(Run(c, s, events[..i]).sh.job.status)
      ensures !Overwrites(Run(c, s, events[..i]), events[i])
    {
      NoLapseKeepsTerminal(c, s, events, i);
      TerminalChangesIff(c, Run(c, s, events[..i]), events[i]);
    }
    TerminalExactly(c, s, events);
  }

  // ---- Runs in which COMPLETED becomes FAILED ------------------------------------------------

  predicate GoesOn(pc: Pc) {
    !IsDeleting(pc) && !pc.Ended?
  }

  lemma ClaimGoesOn(c: Config, t: Table, sh: Shared, k: Worker)
    requires IsClaiming(k.pc) && Delivery.OnTrack(c, t, sh, k)
    ensures GoesOn(ActClaim(c, sh, k).k.pc)
  {
    hide Delivery.IsPublished, Delivery.CloseTrack, Delivery.InPlace, Delivery.BatchTrack, Delivery.AssembleTrack;
  }

  lemma MiddleGoesOn(c: Config, sh: Shared, k: Worker)
    ensures IsResuming(k.pc) ==> GoesOn(ActResume(sh, k).k.pc)
    ensures IsBatching(k.pc) ==> GoesOn(ActBatch(c, sh, k).k.pc)
  {
    hide LoadResume, Ordered, FetchRecordBatch, Chunk;
  }

  lemma LastPartGoesOn(c: Config, sh: Shared, k: Worker)
    ensures IsAssembling(k.pc) ==> GoesOn(ActAssemble(c, sh, k).k.pc)
    ensures IsVerifying(k.pc) ==> GoesOn(ActVerify(c, sh, k).k.pc)
  {
    hide LoadResume, Ordered, Chunk, Final, AuditBody, IsReadable;
  }

  lemma OnlyCompletingCleans(c: Config, t: Table, sh: Shared, k: Worker)
    requires Delivery.OnTrack(c, t, sh, k) && !k.pc.Completing? && GoesOn(k.pc)
    ensures GoesOn(Act(c, sh, k).k.pc)
  {
    hide Delivery.OnTrack, ActClaim, ActResume, ActBatch, ActAssemble, ActVerify, ActClose;
    if IsClaiming(k.pc) {
      ClaimGoesOn(c, t, sh, k);
    } else if IsResuming(k.pc) || IsBatching(k.pc) {
      MiddleGoesOn(c, sh, k);
    } else if IsAssembling(k.pc) || IsVerifying(k.pc) {
      LastPartGoesOn(c, sh, k);
    } else {
      Delivery.ClosingOnTrack(c, t, sh, k);
    }
  }

  /** A worker on track comes to the write that completes the job. */
  lemma {:induction false} ComesToCompleting(c: Config, t: Table, before: Shared, s: State, w: nat) returns (n: nat)
    requires w in s.workers && Delivery.Assumptions(c, t, s.workers[w]) && Delivery.OnTrack(c, t, s.sh, s.workers[w])
    requires GoesOn(s.workers[w].pc) && Outcomes.Knows(c, before, s.sh, s.workers[w])
    ensures
      var s' := Run(c, s, Repeat(Work(w, Proceeds), n));
      && w in s'.workers && s'.workers[w].pc.Completing? && Outcomes.Knows(c, before, s'.sh, s'.workers[w])
      && s'.workers.Keys == s.workers.Keys && s'.requests == s.requests && s'.queued == s.queued
    decreases Phase(s.workers[w].pc), Remaining(c, s.workers[w]), Turn(c, s.workers[w])
  {
    hide Act, Phase, Remaining, Turn, Delivery.OnTrack, DataSafety.HasTarget, Delivery.ReadsDecimals, Outcomes.Knows;
    var k := s.workers[w];
    if k.pc.Completing? {
      n := 0;
    } else {
      ActDescends(c, s.sh, k);
      Delivery.ActStays(c, t, s.sh, k);
      Outcomes.ActKnows(c, before, s.sh, k);
      OnlyCompletingCleans(c, t, s.sh, k);
      var m := ComesToCompleting(c, t, before, Step(c, s, Work(w, Proceeds)), w);
      n := m + 1;
      RunFromFirst(c, s, Work(w, Proceeds), Repeat(Work(w, Proceeds), m));
      assert Repeat(Work(w, Proceeds), n) == [Work(w, Proceeds)] + Repeat(Work(w, Proceeds), m);
    }
  }

  /** A job is queued, and one worker runs up to the write that completes it. */
  function ToCompleting(size: nat, n: nat): seq<Event> {
    [WriteQueued] + Delivery.LeftAlone(1, size, n)
  }

  lemma QueuedCanRun(c: Config, t: Table, size: nat, s: State)
    requires Delivery.Assumptions(c, t, NewWorker(size)) && Init(c, s) && DataSafety.IsStable(c, t, s.sh.table)
    ensures
      var s1 := Step(c, s, WriteQueued);
      && Delivery.OnTrack(c, t, s1.sh, NewWorker(size)) && s1.workers == map[] && s1.queued
      && s1.requests == map[] && !s1.sh.job.cancelRequested
  {
    hide DataSafety.HasTarget, Delivery.ReadsDecimals, DataSafety.IsStable, Delivery.OnTrack, Delivery.InPlace;
    DataSafety.InitHasData(c, t, size, s);
    var s1 := Step(c, s, WriteQueued);
    hide DataSafety.LogFits, DataSafety.CutBy, DataSafety.ChunksOk, DataSafety.FinalOk, LogSafety.LogOk, Ordered;
    DataSafety.JobWriteKeepsData(c, t, size, s.sh, SetStatus(s.sh.job, Queued, s.sh.now));
    assert |LogSafety.Log(s1.sh)| == 0;
    Delivery.OverlapInPlace(c, t, size, s1.sh);
    Delivery.FreshIsOnTrack(c, t, s1.sh, size);
  }

  lemma NewKnows(c: Config, sh: Shared, size: nat)
    ensures Outcomes.Knows(c, sh, sh, NewWorker(size))
  {
  }

  lemma CompletingIsVerifying(c: Config, before: Shared, sh: Shared, k: Worker)
    requires k.pc.Completing? && Outcomes.Knows(c, before, sh, k)
    ensures sh.job.status == Verifying && sh.job.cancelRequested == before.job.cancelRequested
  {
    hide Outcomes.IsReported;
  }

  lemma CompletingIsReached(c: Config, t: Table, size: nat, s: State) returns (n: nat)
    requires Delivery.Assumptions(c, t, NewWorker(size)) && Init(c, s) && DataSafety.IsStable(c, t, s.sh.table)
    ensures
      var s' := Run(c, s, ToCompleting(size, n));
      && s'.workers.Keys == {1} && s'.workers[1].pc.Completing? && s'.requests == map[] && s'.queued
      && s'.sh.job.status == Verifying && !s'.sh.job.cancelRequested
  {
    hide DataSafety.HasTarget, Delivery.ReadsDecimals, DataSafety.IsStable, Delivery.OnTrack, Run, Init, StepShared;
    hide ActWithLuck, Outcomes.Knows;
    QueuedCanRun(c, t, size, s);
    var s1 := Step(c, s, WriteQueued);
    var s2 := Step(c, s1, Start(1, size));
    NewKnows(c, s1.sh, size);
    n := ComesToCompleting(c, t, s1.sh, s2, 1);
    RunFromFirst(c, s1, Start(1, size), Repeat(Work(1, Proceeds), n));
    RunFromFirst(c, s, WriteQueued, Delivery.LeftAlone(1, size, n));
    var s' := Run(c, s, ToCompleting(size, n));
    CompletingIsVerifying(c, s1.sh, s'.sh, s'.workers[1]);
  }

  lemma CompletingActs(c: Config, sh: Shared, k: Worker)
    requires k.pc.Completing?
    ensures ActWithLuck(c, sh, k, Proceeds)
      == Effect(WriteJob(sh, Complete(sh.job, FinalKey(c.jobId), sh.now)), k.At(Cleaning))
  {
    hide ActClaim, ActResume, ActBatch, ActAssemble, ActVerify, DropPage, DropChunks, FinalKey;
  }

  lemma CleaningThrows(c: Config, s: State)
    requires 1 in s.workers && s.workers[1].pc.Completing?
    ensures
      var s1 := Step(c, s, Work(1, Proceeds));
      var s2 := Step(c, s1, Work(1, Throws));
      var s3 := Step(c, s2, Work(1, Proceeds));
      s1.sh.job.status == Completed && IsHazard(s1, Work(1, Throws)) && s3.sh.job.status == Status.Failed
  {
    hide ActWithLuck, HasOwner, Step;
    WorkIs(c, s, 1, Proceeds);
    CompletingActs(c, s.sh, s.workers[1]);
    var s1 := Step(c, s, Work(1, Proceeds));
    WorkIs(c, s1, 1, Throws);
    LostDeletion(c, s1.sh, s1.workers[1], Throws);
    var s2 := Step(c, s1, Work(1, Throws));
    WorkIs(c, s2, 1, Proceeds);
    CatchFails(c, s2.sh, s2.workers[1]);
  }

  lemma CompletionReplyLost(c: Config, s: State)
    requires 1 in s.workers && s.workers[1].pc.Completing?
    ensures
      var s1 := Step(c, s, Work(1, LosesReply));
      var s2 := Step(c, s1, Work(1, Proceeds));
      IsHazard(s, Work(1, LosesReply)) && s1.sh.job.status == Completed && s2.sh.job.status == Status.Failed
  {
    hide ActWithLuck, HasOwner, StepShared;
    LostEnding(c, s.sh, s.workers[1]);
    var s1 := Step(c, s, Work(1, LosesReply));
    CatchFails(c, s1.sh, s1.workers[1]);
  }

  lemma QueuedFirst(c: Config, s: State)
    ensures Run(c, s, [WriteQueued]).queued
  {
    hide StepShared, ActWithLuck;
    assert [WriteQueued][..0] == [];
    RunOne(c, s, [WriteQueued], 0);
    assert [WriteQueued][..1] == [WriteQueued];
  }

  lemma QueueComesFirst(c: Config, s: State, size: nat, n: nat, ending: seq<Event>)
    requires forall e :: e in ending ==> e.Work?
    ensures IsOrderlyRun(c, s, ToCompleting(size, n) + ending)
  {
    hide Run, Step, HasOwner, IsFresh;
    var events := ToCompleting(size, n) + ending;
    QueuedFirst(c, s);
    forall i | 0 <= i < |events|
      ensures IsOrderly(c, Run(c, s, events[..i]), events[i])
    {
      if i == 1 {
        assert events[..1] == [WriteQueued];
      } else {
        assert i > 1 ==> events[i].Work?;
      }
    }
  }

  lemma RunThree(c: Config, s: State, events: seq<Event>, a: Event, b: Event, d: Event)
    ensures Run(c, s, events + [a]) == Step(c, Run(c, s, events), a)
    ensures Run(c, s, events + [a, b]) == Step(c, Step(c, Run(c, s, events), a), b)
    ensures Run(c, s, events + [a, b, d]) == Step(c, Step(c, Step(c, Run(c, s, events), a), b), d)
  {
    hide Step;
    assert (events + [a])[..|events|] == events;
    assert (events + [a, b])[..|events| + 1] == events + [a];
    assert (events + [a, b, d])[..|events| + 2] == events + [a, b];
  }

  /** Even in orderly runs COMPLETED is not final: every export over a stable table can complete and then become FAILED,
      by a throw of the deletion after it or by the lost reply of the completing write. */
  lemma CompletedCanFail(c: Config, t: Table, size: nat, s: State) returns (n: nat)
    requires Delivery.Assumptions(c, t, NewWorker(size)) && Init(c, s) && DataSafety.IsStable(c, t, s.sh.table)
    ensures
      var throws := ToCompleting(size, n) + [Work(1, Proceeds), Work(1, Throws), Work(1, Proceeds)];
      && IsOrderlyRun(c, s, throws)
      && Run(c, s, throws[..|throws| - 2]).sh.job.status == Completed
      && Run(c, s, throws).sh.job.status == Status.Failed
    ensures
      var loses := ToCompleting(size, n) + [Work(1, LosesReply), Work(1, Proceeds)];
      && IsOrderlyRun(c, s, loses)
      && Run(c, s, loses[..|loses| - 1]).sh.job.status == Completed
      && Run(c, s, loses).sh.job.status == Status.Failed
  {
    hide DataSafety.HasTarget, Delivery.ReadsDecimals, DataSafety.IsStable, Run, Init, Step, ToCompleting, IsOrderlyRun;
    hide IsHazard;
    n := CompletingIsReached(c, t, size, s);
    var events := ToCompleting(size, n);
    CleaningThrows(c, Run(c, s, events));
    CompletionReplyLost(c, Run(c, s, events));
    RunThree(c, s, events, Work(1, Proceeds), Work(1, Throws), Work(1, Proceeds));
    RunThree(c, s, events, Work(1, LosesReply), Work(1, Proceeds), Tick);
    QueueComesFirst(c, s, size, n, [Work(1, Proceeds), Work(1, Throws), Work(1, Proceeds)]);
    QueueComesFirst(c, s, size, n, [Work(1, LosesReply), Work(1, Proceeds)]);
    var throws := events + [Work(1, Proceeds), Work(1, Throws), Work(1, Proceeds)];
    var loses := events + [Work(1, LosesReply), Work(1, Proceeds)];
    assert throws[..|throws| - 2] == events + [Work(1, Proceeds)];
    assert loses[..|loses| - 1] == events + [Work(1, LosesReply)];
  }
}
