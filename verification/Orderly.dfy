/** Ownership when everybody but the workers is on time: heartbeats are fresh, API requests are atomic, and creation's
    second write comes first. What is left to go wrong are the three hazards. */
module Orderly {
  import opened Common
  import opened Resume
  import opened Jobs
  import opened Protocol
  import opened Ownership

  predicate IsFresh(c: Config, row: JobRow, now: int) {
    row.updatedAt >= now - c.stallTimeout
  }

  /** An owner's heartbeat is never older than the stall timeout, an API request finds the status it read, and nothing
      precedes creation's second write. */
  predicate IsOrderly(c: Config, s: State, e: Event) {
    match e
    case Tick => HasOwner(s) && s.sh.job.status == Running ==> IsFresh(c, s.sh.job, s.sh.now + 1)
    case Start(w, batchSize) => s.queued
    case Ask(id, kind) => s.queued
    case Answer(id) => id in s.requests ==> s.requests[id].seen.status == s.sh.job.status
    case _ => true
  }

  predicate FreshOwner(c: Config, s: State) {
    HasOwner(s) && s.sh.job.status == Running ==> IsFresh(c, s.sh.job, s.sh.now)
  }

  ghost predicate OrderInv(c: Config, s: State) {
    && SafeInv(s)
    && FreshOwner(c, s)
    && (forall w :: w in s.workers ==> CutoffOk(c, s.sh, s.workers[w]))
    && (forall id :: id in s.requests ==> Accepts(s.requests[id].kind, s.requests[id].seen.status))
    && (!s.queued ==> s.workers == map[] && s.requests == map[] && s.sh.job.status == Pending)
  }

  // ---- Order leaves no disorder ------------------------------------------------------

  /** On time, nobody finds a live owner's row stale, resumable or outdated. */
  lemma OrderlyHasNoDisorder(c: Config, s: State, e: Event)
    requires OrderInv(c, s) && IsOrderly(c, s, e)
    ensures !IsDisorder(c, s, e)
  {
    hide HasOwner, SingleOwner, PlaceOk;
    if HasOwner(s) {
      BusyWithOwner(s);
      if !s.queued {
        NobodyOwnsNothing(s);
      }
    }
  }

  lemma NobodyOwnsNothing(s: State)
    requires s.workers == map[]
    ensures !HasOwner(s)
  {
  }

  lemma WorkKeepsFresh(c: Config, s: State, w: nat, luck: Luck)
    requires OrderInv(c, s) && w in s.workers && !IsHazard(s, Work(w, luck))
    ensures
      var e := ActWithLuck(c, s.sh, s.workers[w], luck);
      FreshOwner(c, After(s, w, e)) && CutoffOk(c, e.sh, e.k) && e.sh.now == s.sh.now
  {
    hide ActWithLuck, Owns, PlaceOk, SingleOwner, HasOwner, CutoffOk;
    var e := ActWithLuck(c, s.sh, s.workers[w], luck);
    if IsOwner(s, w) {
      OwnerIsAlone(s, w);
      EndingIsAnswered(s, w, luck);
      OwnerTurn(c, s.sh, s.workers[w], luck);
      CutoffLasts(c, s.sh, e.sh, e.k);
    } else {
      VisitorTurn(c, s, w, luck);
      CutoffLasts(c, s.sh, e.sh, e.k);
      if e.sh.job == s.sh.job && !Owns(e.k) {
        OwnersBefore(s, w, e);
      }
    }
  }

  lemma EndingIsAnswered(s: State, w: nat, luck: Luck)
    requires IsOwner(s, w) && !IsHazard(s, Work(w, luck))
    ensures luck == LosesReply ==> !Closes(s.workers[w].pc) || s.workers[w].pc.Catching?
  {
    hide HasOwner;
  }

  lemma OwnersBefore(s: State, w: nat, e: Effect)
    requires !Owns(e.k)
    ensures HasOwner(After(s, w, e)) ==> HasOwner(s)
  {
    hide Owns;
  }

  lemma CutoffLasts(c: Config, sh: Shared, sh': Shared, k: Worker)
    requires CutoffOk(c, sh, k) && sh'.now >= sh.now
    ensures CutoffOk(c, sh', k)
  {
  }

  lemma CutoffsLast(c: Config, s: State, sh': Shared)
    requires OrderInv(c, s) && sh'.now >= s.sh.now
    ensures forall w :: w in s.workers ==> CutoffOk(c, sh', s.workers[w])
  {
    hide SafeInv, HasOwner, CutoffOk;
    forall w | w in s.workers
      ensures CutoffOk(c, sh', s.workers[w])
    {
      CutoffLasts(c, s.sh, sh', s.workers[w]);
    }
  }

  lemma WorkKeepsOrder(c: Config, s: State, w: nat, luck: Luck)
    requires OrderInv(c, s) && w in s.workers && !IsHazard(s, Work(w, luck))
    requires SafeInv(Step(c, s, Work(w, luck)))
    ensures OrderInv(c, Step(c, s, Work(w, luck)))
  {
    hide ActWithLuck, SafeInv, HasOwner, CutoffOk, IsHazard, Step, IsFresh;
    WorkIs(c, s, w, luck);
    WorkKeepsFresh(c, s, w, luck);
    CutoffsLast(c, s, ActWithLuck(c, s.sh, s.workers[w], luck).sh);
  }

  lemma StartKeepsOrder(c: Config, s: State, w: nat, batchSize: nat)
    requires OrderInv(c, s) && s.queued && w !in s.workers
    requires SafeInv(Step(c, s, Start(w, batchSize)))
    ensures OrderInv(c, Step(c, s, Start(w, batchSize)))
  {
    hide SafeInv, HasOwner, IsFresh, CutoffOk, Accepts, NewWorker;
    StartIs(c, s, w, batchSize);
    hide Step;
    NewIsHarmless(c, s.sh, batchSize);
    OwnersBefore(s, w, Effect(s.sh, NewWorker(batchSize)));
  }

  lemma StartIs(c: Config, s: State, w: nat, batchSize: nat)
    requires w !in s.workers
    ensures Step(c, s, Start(w, batchSize)) == After(s, w, Effect(s.sh, NewWorker(batchSize)))
  {
    hide StepShared, ActWithLuck;
  }

  lemma NewIsHarmless(c: Config, sh: Shared, batchSize: nat)
    ensures CutoffOk(c, sh, NewWorker(batchSize)) && !Owns(NewWorker(batchSize))
  {
  }

  lemma SharedKeepsFresh(c: Config, s: State, e: Event)
    requires OrderInv(c, s) && IsOrderly(c, s, e)
    ensures var sh := StepShared(c, s.sh, e);
      && sh.now >= s.sh.now
      && (HasOwner(s) && sh.job.status == Running ==> IsFresh(c, sh.job, sh.now))
      && (s.sh.job.status == Pending ==> sh.job.status == Pending)
  {
    hide SafeInv, HasOwner, CutoffOk, SameOwnObjects, Accepts;
  }

  lemma OutsideKeepsFresh(c: Config, s: State, e: Event)
    requires OrderInv(c, s) && IsOrderly(c, s, e) && !e.Work? && !e.Start?
    ensures var s' := Step(c, s, e);
      && s'.workers == s.workers && s'.sh.now >= s.sh.now
      && (HasOwner(s) && s'.sh.job.status == Running ==> IsFresh(c, s'.sh.job, s'.sh.now))
  {
    hide SafeInv, HasOwner, CutoffOk, AuditBody, IsReadable, Final, Accepts, StepShared, ActWithLuck;
    SharedKeepsFresh(c, s, e);
  }

  lemma OutsideKeepsRequests(c: Config, s: State, e: Event)
    requires OrderInv(c, s) && IsOrderly(c, s, e) && !e.Work? && !e.Start?
    ensures var s' := Step(c, s, e);
      && (!s'.queued ==> s'.workers == map[] && s'.requests == map[] && s'.sh.job.status == Pending)
      && (forall id :: id in s'.requests ==> Accepts(s'.requests[id].kind, s'.requests[id].seen.status))
  {
    hide SafeInv, FreshOwner, CutoffOk, AuditBody, IsReadable, Final, Accepts, StepShared, ActWithLuck;
    SharedKeepsFresh(c, s, e);
  }

  lemma OutsideKeepsOrder(c: Config, s: State, e: Event)
    requires OrderInv(c, s) && IsOrderly(c, s, e) && !e.Work? && !e.Start? && SafeInv(Step(c, s, e))
    ensures OrderInv(c, Step(c, s, e))
  {
    hide SafeInv, HasOwner, CutoffOk, IsFresh, Step, Accepts, IsOrderly;
    var s' := Step(c, s, e);
    OutsideKeepsFresh(c, s, e);
    OutsideKeepsRequests(c, s, e);
    CutoffsLast(c, s, s'.sh);
    SameOwners(s, s');
  }

  lemma StepKeepsOrder(c: Config, s: State, e: Event)
    requires OrderInv(c, s) && IsOrderly(c, s, e) && !IsHazard(s, e)
    ensures OrderInv(c, Step(c, s, e))
  {
    hide OrderInv, Step, IsHazard, IsDisorder, SafeInv;
    OrderIsSafe(c, s);
    OrderlyHasNoDisorder(c, s, e);
    StepKeepsSafe(c, s, e);
    if e.Work? && e.w in s.workers {
      WorkKeepsOrder(c, s, e.w, e.luck);
    } else if e.Start? && e.w !in s.workers {
      StartKeepsOrder(c, s, e.w, e.batchSize);
    } else if e.Work? || e.Start? {
      NothingHappens(c, s, e);
    } else {
      OutsideKeepsOrder(c, s, e);
    }
  }

  lemma OrderIsSafe(c: Config, s: State)
    requires OrderInv(c, s)
    ensures SafeInv(s)
  {
  }

  // ---- Every orderly run ----------------------------------------------------------------

  ghost predicate IsOrderlyRun(c: Config, s: State, events: seq<Event>) {
    forall i :: 0 <= i < |events| ==> IsOrderly(c, Run(c, s, events[..i]), events[i])
  }

  ghost predicate HasNoHazard(c: Config, s: State, events: seq<Event>) {
    forall i :: 0 <= i < |events| ==> !IsHazard(Run(c, s, events[..i]), events[i])
  }

  lemma InitIsOrdered(c: Config, s: State)
    requires Init(c, s)
    ensures OrderInv(c, s)
  {
  }

  lemma {:induction false} OrderInvAlways(c: Config, s: State, events: seq<Event>)
    requires Init(c, s) && IsOrderlyRun(c, s, events) && HasNoHazard(c, s, events)
    ensures OrderInv(c, Run(c, s, events))
  {
    hide OrderInv, Step, Init, IsOrderly, IsHazard;
    if events == [] {
      InitIsOrdered(c, s);
    } else {
      var before := events[..|events| - 1];
      assert forall i :: 0 <= i < |before| ==> before[..i] == events[..i];
      OrderInvAlways(c, s, before);
      StepKeepsOrder(c, Run(c, s, before), events[|events| - 1]);
    }
  }

  lemma PrefixRun(c: Config, s: State, events: seq<Event>, n: nat)
    requires n <= |events|
    ensures IsOrderlyRun(c, s, events) ==> IsOrderlyRun(c, s, events[..n])
    ensures HasNoHazard(c, s, events) ==> HasNoHazard(c, s, events[..n])
  {
    hide IsOrderly, IsHazard, Run;
    assert forall i :: 0 <= i < n ==> events[..n][..i] == events[..i];
  }

  /** An orderly run has a lapse exactly when it has a hazard. */
  lemma OrderlyLapses(c: Config, s: State, events: seq<Event>)
    requires Init(c, s) && IsOrderlyRun(c, s, events)
    ensures HasNoLapse(c, s, events) <==> HasNoHazard(c, s, events)
  {
    hide OrderInv, Init, IsOrderly, IsHazard, IsDisorder, Run;
    if HasNoHazard(c, s, events) {
      forall i | 0 <= i < |events|
        ensures !IsDisorder(c, Run(c, s, events[..i]), events[i])
      {
        PrefixRun(c, s, events, i);
        OrderInvAlways(c, s, events[..i]);
        OrderlyHasNoDisorder(c, Run(c, s, events[..i]), events[i]);
      }
    }
  }

  /** Over every orderly run: single ownership and final terminal statuses hold at each step exactly when no step is
      one of the three hazards. */
  lemma OrderlyOwnershipExactly(c: Config, s: State, events: seq<Event>)
    requires Init(c, s) && IsOrderlyRun(c, s, events)
    ensures IsSafeRun(c, s, events) <==> HasNoHazard(c, s, events)
  {
    hide IsSafeRun, HasNoHazard, HasNoLapse, IsOrderlyRun, Init;
    OrderlyLapses(c, s, events);
    OwnershipExactly(c, s, events);
  }

  // ---- A run that loses the job ---------------------------------------------------------

  /** One worker claims; the user cancels; a second pickup cancels early; then the first worker, still at work,
      has a request fail. */
  const CANCEL_RACE: seq<Event> := [
    WriteQueued, Start(1, 1), Work(1, Proceeds), Work(1, Proceeds), Work(1, Proceeds), Ask(0, AskCancel), Answer(0),
    Start(2, 1), Work(2, Proceeds), Work(2, Proceeds), Work(1, Proceeds), Work(1, Throws), Work(1, Proceeds)]

  /** The job of the race: `first` where worker 1 stands. */
  predicate InRace(s: State, status: Status, first: Pc, cancelRequested: bool) {
    && s.queued && s.sh.job.status == status && s.sh.job.cancelRequested == cancelRequested
    && 1 in s.workers && s.workers[1].pc == first && 2 !in s.workers
  }

  lemma RaceToPickup(c: Config, s: State)
    requires Init(c, s)
    ensures InRace(Run(c, s, CANCEL_RACE[..2]), Queued, Reading, false) && Run(c, s, CANCEL_RACE[..2]).requests == map[]
    ensures Run(c, s, CANCEL_RACE[..1]).queued
  {
    hide Run, ActWithLuck, StepShared;
    var es := CANCEL_RACE;
    RunNone(c, s, es);
    RunOne(c, s, es, 0);
    RunOne(c, s, es, 1);
  }

  lemma ClaimProceeds(c: Config, sh: Shared, k: Worker)
    requires IsClaiming(k.pc)
    ensures ActWithLuck(c, sh, k, Proceeds) == ActClaim(c, sh, k)
  {
    hide ActClaim;
  }

  lemma RaceToOwner(c: Config, s: State)
    requires Init(c, s)
    ensures InRace(Run(c, s, CANCEL_RACE[..5]), Running, Stamping, false)
    ensures Run(c, s, CANCEL_RACE[..5]).requests == map[]
  {
    hide Run, ActWithLuck, StepShared, Init;
    var es := CANCEL_RACE;
    RaceToPickup(c, s);
    var s2 := Run(c, s, es[..2]);
    ClaimProceeds(c, s2.sh, s2.workers[1]);
    RunOne(c, s, es, 2);
    var s3 := Run(c, s, es[..3]);
    ClaimProceeds(c, s3.sh, s3.workers[1]);
    RunOne(c, s, es, 3);
    var s4 := Run(c, s, es[..4]);
    ClaimProceeds(c, s4.sh, s4.workers[1]);
    RunOne(c, s, es, 4);
  }

  lemma RaceToFlag(c: Config, s: State)
    requires Init(c, s)
    ensures InRace(Run(c, s, CANCEL_RACE[..7]), Running, Stamping, true)
    ensures var s6 := Run(c, s, CANCEL_RACE[..6]); 0 in s6.requests && s6.requests[0].seen.status == s6.sh.job.status
  {
    hide Run, Init, ActWithLuck, StepShared;
    var es := CANCEL_RACE;
    RaceToOwner(c, s);
    RunOne(c, s, es, 5);
    RunOne(c, s, es, 6);
  }

  lemma RaceToCancelled(c: Config, s: State)
    requires Init(c, s)
    ensures
      var s10 := Run(c, s, CANCEL_RACE[..10]);
      s10.sh.job.status == Cancelled && IsOwner(s10, 1) && s10.workers[1].pc == Stamping
    ensures IsHazard(Run(c, s, CANCEL_RACE[..9]), CANCEL_RACE[9])
  {
    hide Run, Init, ActWithLuck, HasOwner;
    var es := CANCEL_RACE;
    RaceToFlag(c, s);
    RunOne(c, s, es, 7);
    var s8 := Run(c, s, es[..8]);
    ClaimProceeds(c, s8.sh, s8.workers[2]);
    RunOne(c, s, es, 8);
    var s9 := Run(c, s, es[..9]);
    ClaimProceeds(c, s9.sh, s9.workers[2]);
    RunOne(c, s, es, 9);
    OwnerIsSome(s9, 1);
  }

  lemma RaceToThrow(c: Config, s: State)
    requires Init(c, s)
    ensures var s12 := Run(c, s, CANCEL_RACE[..12]); 1 in s12.workers && s12.workers[1].pc == Catching
  {
    hide Run, Init, ActWithLuck, HasOwner;
    var es := CANCEL_RACE;
    RaceToCancelled(c, s);
    var s10 := Run(c, s, es[..10]);
    ClaimProceeds(c, s10.sh, s10.workers[1]);
    RunOne(c, s, es, 10);
    var s11 := Run(c, s, es[..11]);
    ThrowIsCaught(c, s11.sh, s11.workers[1]);
    RunOne(c, s, es, 11);
  }

  lemma ThrowIsCaught(c: Config, sh: Shared, k: Worker)
    requires InTry(k.pc)
    ensures ActWithLuck(c, sh, k, Throws) == Effect(sh, k.At(Catching))
  {
    hide Act, DropPage;
  }

  lemma CatchFails(c: Config, sh: Shared, k: Worker)
    requires k.pc.Catching?
    ensures ActWithLuck(c, sh, k, Proceeds).sh.job.status == Status.Failed
  {
    hide ActClaim, ActResume, ActBatch, ActAssemble, ActVerify, DropPage, DropChunks;
  }

  lemma RaceToFailed(c: Config, s: State)
    requires Init(c, s)
    ensures Run(c, s, CANCEL_RACE).sh.job.status == Status.Failed
  {
    hide Run, Init, ActWithLuck;
    var es := CANCEL_RACE;
    RaceToThrow(c, s);
    var s12 := Run(c, s, es[..12]);
    CatchFails(c, s12.sh, s12.workers[1]);
    RunOne(c, s, es, 12);
    assert es[..13] == es;
  }

  /** The claim that a job has one owner and that CANCELLED is final is false of the code, even with fresh
      heartbeats and atomic requests: after ten steps of an orderly run the job is cancelled while a worker owns it,
      and three steps later it is FAILED. */
  lemma EarlyCancelLosesTheJob(c: Config, s: State)
    requires Init(c, s)
    ensures IsOrderlyRun(c, s, CANCEL_RACE) && !IsSafeRun(c, s, CANCEL_RACE)
    ensures Run(c, s, CANCEL_RACE[..10]).sh.job.status == Cancelled && HasOwner(Run(c, s, CANCEL_RACE[..10]))
    ensures Run(c, s, CANCEL_RACE).sh.job.status == Status.Failed
  {
    hide Run, Init, Step, IsSafeRun, IsHazard, HasOwner, IsOrderlyRun;
    RaceIsOrderly(c, s);
    RaceToCancelled(c, s);
    RaceToFailed(c, s);
    OwnerIsSome(Run(c, s, CANCEL_RACE[..10]), 1);
    OrderlyOwnershipExactly(c, s, CANCEL_RACE);
  }

  lemma RaceIsOrderly(c: Config, s: State)
    requires Init(c, s)
    ensures IsOrderlyRun(c, s, CANCEL_RACE)
  {
    hide Run, Init, Step, HasOwner;
    RaceToPickup(c, s);
    RaceToOwner(c, s);
    RaceToFlag(c, s);
    forall i | 0 <= i < |CANCEL_RACE|
      ensures IsOrderly(c, Run(c, s, CANCEL_RACE[..i]), CANCEL_RACE[i])
    {
    }
  }
}
