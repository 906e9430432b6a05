/** Who may write the job row, over every run: any overlap, any faults, any timing. The code keeps a single live owner
    and final terminal statuses exactly as long as nobody takes one of the steps that it leaves unguarded. */
module Ownership {
  import opened Common
  import opened Csv
  import opened RecordSource
  import opened Storage
  import opened Resume
  import opened Jobs
  import opened Protocol

  /** From a won claim to the write that ends the run. */
  predicate Owns(k: Worker) {
    k.pc.Stamping? || k.pc.Catching? || (InTry(k.pc) && !IsDeleting(k.pc))
  }

  predicate IsOwner(s: State, w: nat) {
    w in s.workers && Owns(s.workers[w])
  }

  predicate HasOwner(s: State) {
    exists w :: w in s.workers && Owns(s.workers[w])
  }

  predicate IsBusy(status: Status) {
    status == Running || status == Verifying
  }

  /** At most one live owner, and only of a job that says it is being worked on. */
  ghost predicate SingleOwner(s: State) {
    && (forall v, w :: IsOwner(s, v) && IsOwner(s, w) ==> v == w)
    && (forall w :: IsOwner(s, w) ==> IsBusy(s.sh.job.status))
  }

  /** A step that leaves a single owner and a terminal status as it was. */
  ghost predicate IsSafeStep(s: State, s': State) {
    SingleOwner(s') && (IsTerminal(s.sh.job.status) ==> s'.sh.job.status == s.sh.job.status)
  }

  predicate IsDone(luck: Luck) {
    luck == Proceeds || luck == LosesReply
  }

  predicate IsRefused(luck: Luck) {
    luck == Throws || luck == LosesReply
  }

  /** Three steps that the code leaves open whatever the timing: the unguarded early cancel of a job that has an owner
      or is complete, the lost reply to the write that ends a run, and a failing deletion of chunks after it. */
  predicate IsHazard(s: State, e: Event) {
    e.Work? && e.w in s.workers &&
    match s.workers[e.w].pc
    case CancellingEarly => IsDone(e.luck) && (HasOwner(s) || s.sh.job.status == Completed)
    case Failing(_) => e.luck == LosesReply
    case Cancelling => e.luck == LosesReply
    case Completing => e.luck == LosesReply
    case Discarding => IsRefused(e.luck)
    case Cleaning => IsRefused(e.luck)
    case _ => false
  }

  /** Five steps that come too early or too late: the sweep or the claim of a job whose owner is slow but alive, the
      write of an API request that read the row before it changed, and creation's second write after pickup. */
  predicate IsDisorder(c: Config, s: State, e: Event) {
    match e
    case Sweep(startedAt) =>
      startedAt <= s.sh.now && IsStale(s.sh.job, startedAt - c.stallTimeout) && HasOwner(s)
    case WriteQueued => !s.queued && (HasOwner(s) || IsTerminal(s.sh.job.status))
    case Answer(id) =>
      id in s.requests && (
        if s.requests[id].kind == AskResume then HasOwner(s) || IsTerminal(s.sh.job.status)
        else s.requests[id].seen.status != Running && (HasOwner(s) || s.sh.job.status == Completed))
    case Work(w, luck) =>
      && w in s.workers && s.workers[w].pc.Claiming? && luck == Proceeds
      && IsClaimable(s.sh.job, s.workers[w].pc.cutoff) && HasOwner(s)
    case _ => false
  }

  predicate IsLapse(c: Config, s: State, e: Event) {
    IsHazard(s, e) || IsDisorder(c, s, e)
  }

  /** What a worker's place says about the row. */
  predicate PlaceOk(sh: Shared, k: Worker) {
    && (k.pc.Cleaning? ==> sh.job.status == Completed)
    && (k.pc.Discarding? ==> sh.job.status == Cancelled)
  }

  ghost predicate SafeInv(s: State) {
    SingleOwner(s) && forall w :: w in s.workers ==> PlaceOk(s.sh, s.workers[w])
  }

  // ---- One worker's request ---------------------------------------------------------

  predicate Closes(pc: Pc) {
    pc.Failing? || pc.Cancelling? || pc.Completing? || pc.Catching?
  }

  /** An owner's request: the row is kept or stamped now, and while the worker goes on owning the job stays busy. */
  predicate OwnerActOk(sh: Shared, k: Worker, e: Effect) {
    && e.sh.now == sh.now
    && (e.sh.job == sh.job || e.sh.job.updatedAt == sh.now)
    && (Owns(e.k) ==> IsBusy(e.sh.job.status))
    && (!Closes(k.pc) ==> Owns(e.k))
    && !e.k.pc.Claiming?
    && (e.k.pc.Cleaning? ==> e.sh.job.status == Completed)
    && (e.k.pc.Discarding? ==> e.sh.job.status == Cancelled)
  }

  lemma StampOwner(c: Config, sh: Shared, k: Worker)
    requires IsBusy(sh.job.status) && k.pc.Stamping?
    ensures OwnerActOk(sh, k, ActClaim(c, sh, k))
  {
  }

  lemma ResumeOwner(sh: Shared, k: Worker)
    requires IsBusy(sh.job.status) && IsResuming(k.pc)
    ensures OwnerActOk(sh, k, ActResume(sh, k))
  {
    hide LoadResume, Ordered;
  }

  lemma BatchOwner(c: Config, sh: Shared, k: Worker)
    requires IsBusy(sh.job.status) && IsBatching(k.pc)
    ensures OwnerActOk(sh, k, ActBatch(c, sh, k))
  {
    hide FetchRecordBatch, SerializeChunk, Chunk;
  }

  lemma AssembleOwner(c: Config, sh: Shared, k: Worker)
    requires IsBusy(sh.job.status) && IsAssembling(k.pc)
    ensures OwnerActOk(sh, k, ActAssemble(c, sh, k))
  {
    hide LoadResume, Ordered, CsvHeader, Chunk;
  }

  lemma VerifyOwner(c: Config, sh: Shared, k: Worker)
    requires IsBusy(sh.job.status) && IsVerifying(k.pc)
    ensures OwnerActOk(sh, k, ActVerify(c, sh, k))
  {
    hide AuditBody, IsReadable, Final;
  }

  lemma CloseOwner(c: Config, sh: Shared, k: Worker)
    requires IsBusy(sh.job.status) && (k.pc.NotingKey? || Closes(k.pc))
    ensures OwnerActOk(sh, k, ActClose(c, sh, k))
  {
    hide DropChunks, FinalKey;
  }

  lemma OwnerAct(c: Config, sh: Shared, k: Worker)
    requires IsBusy(sh.job.status) && Owns(k)
    ensures OwnerActOk(sh, k, Act(c, sh, k))
  {
    hide OwnerActOk, ActClaim, ActResume, ActBatch, ActAssemble, ActVerify, ActClose;
    if k.pc.Stamping? {
      StampOwner(c, sh, k);
    } else if IsResuming(k.pc) {
      ResumeOwner(sh, k);
    } else if IsBatching(k.pc) {
      BatchOwner(c, sh, k);
    } else if IsAssembling(k.pc) {
      AssembleOwner(c, sh, k);
    } else if IsVerifying(k.pc) {
      VerifyOwner(c, sh, k);
    } else {
      CloseOwner(c, sh, k);
    }
  }

  /** A worker that computed its cutoff computed it from the clock. */
  predicate CutoffOk(c: Config, sh: Shared, k: Worker) {
    k.pc.Claiming? ==> k.pc.cutoff <= sh.now - c.stallTimeout
  }

  /** What one request of a worker means for the others: the row survives, or it is won, or it is given up. */
  predicate TurnOk(c: Config, sh: Shared, e: Effect) {
    && e.sh.now == sh.now
    && (e.sh.job == sh.job || e.sh.job.updatedAt == sh.now)
    && PlaceOk(e.sh, e.k)
    && (Owns(e.k) ==> IsBusy(e.sh.job.status))
  }

  lemma OwnerTurn(c: Config, sh: Shared, k: Worker, luck: Luck)
    requires IsBusy(sh.job.status) && Owns(k)
    requires luck == LosesReply ==> !Closes(k.pc) || k.pc.Catching?
    ensures TurnOk(c, sh, ActWithLuck(c, sh, k, luck)) && CutoffOk(c, sh, ActWithLuck(c, sh, k, luck).k)
  {
    hide Act, DropPage;
    OwnerAct(c, sh, k);
  }

  /** How a worker without the job leaves it: untouched, won, or cancelled early. */
  predicate VisitOk(sh: Shared, k: Worker, luck: Luck, e: Effect) {
    || (e.sh.job == sh.job && !Owns(e.k))
    || (k.pc.Claiming? && IsClaimable(sh.job, k.pc.cutoff) && e.sh.job == SetStatus(sh.job, Running, sh.now)
        && (Owns(e.k) ==> luck == Proceeds))
    || (k.pc.CancellingEarly? && IsDone(luck) && e.sh.job == SetStatus(sh.job, Cancelled, sh.now) && !Owns(e.k))
  }

  lemma ClaimTurn(c: Config, sh: Shared, k: Worker, luck: Luck)
    requires IsClaiming(k.pc) && !k.pc.Stamping?
    ensures
      var e := ActWithLuck(c, sh, k, luck);
      TurnOk(c, sh, e) && VisitOk(sh, k, luck, e) && (CutoffOk(c, sh, k) ==> CutoffOk(c, sh, e.k))
  {
    hide ActResume, ActBatch, ActAssemble, ActVerify, ActClose, DropPage;
  }

  lemma DeletionTurn(c: Config, sh: Shared, k: Worker, luck: Luck)
    requires (IsDeleting(k.pc) && !IsRefused(luck)) || k.pc.Ended?
    requires PlaceOk(sh, k)
    ensures
      var e := ActWithLuck(c, sh, k, luck);
      TurnOk(c, sh, e) && VisitOk(sh, k, luck, e) && !e.k.pc.Claiming?
  {
    hide ActClaim, ActResume, ActBatch, ActAssemble, ActVerify, DropPage, DropChunks;
    DropKeepsRow(c, sh);
    if luck.DeletesPage? {
      PageKeepsRow(c, sh, luck.keys);
    }
  }

  /** A worker without the job: it leaves the row alone, wins a claimable job, or cancels it early. */
  lemma VisitorTurn(c: Config, s: State, w: nat, luck: Luck)
    requires w in s.workers && !IsOwner(s, w) && PlaceOk(s.sh, s.workers[w]) && !IsHazard(s, Work(w, luck))
    ensures
      var e := ActWithLuck(c, s.sh, s.workers[w], luck);
      TurnOk(c, s.sh, e) && VisitOk(s.sh, s.workers[w], luck, e)
    ensures CutoffOk(c, s.sh, s.workers[w]) ==> CutoffOk(c, s.sh, ActWithLuck(c, s.sh, s.workers[w], luck).k)
  {
    hide ActWithLuck, TurnOk, VisitOk, HasOwner;
    var k := s.workers[w];
    if IsClaiming(k.pc) {
      ClaimTurn(c, s.sh, k, luck);
    } else {
      DeletionTurn(c, s.sh, k, luck);
    }
  }

  // ---- One step --------------------------------------------------------------------

  lemma OwnerIsAlone(s: State, w: nat)
    requires SingleOwner(s) && IsOwner(s, w)
    ensures forall v :: v in s.workers && v != w ==> !Owns(s.workers[v])
    ensures IsBusy(s.sh.job.status) && HasOwner(s)
  {
    assert forall v :: v in s.workers && Owns(s.workers[v]) ==> IsOwner(s, v);
  }

  lemma BusyWithOwner(s: State)
    requires SingleOwner(s) && HasOwner(s)
    ensures IsBusy(s.sh.job.status)
  {
    hide Owns;
    var w :| w in s.workers && Owns(s.workers[w]);
    assert IsOwner(s, w);
  }

  lemma SameOwners(s: State, s': State)
    requires s'.workers == s.workers
    ensures HasOwner(s') <==> HasOwner(s)
  {
    hide Owns;
  }

  lemma OwnerIsSome(s: State, w: nat)
    requires IsOwner(s, w)
    ensures HasOwner(s)
  {
  }

  lemma PlaceKept(sh: Shared, sh': Shared, k: Worker)
    requires PlaceOk(sh, k) && (IsTerminal(sh.job.status) ==> sh'.job.status == sh.job.status)
    ensures PlaceOk(sh', k)
  {
  }

  lemma PlacesKept(s: State, w: nat, e: Effect)
    requires SafeInv(s) && PlaceOk(e.sh, e.k)
    requires IsTerminal(s.sh.job.status) ==> e.sh.job.status == s.sh.job.status
    ensures forall v :: v in After(s, w, e).workers ==> PlaceOk(e.sh, After(s, w, e).workers[v])
  {
    hide PlaceOk, SingleOwner;
    forall v | v in After(s, w, e).workers
      ensures PlaceOk(e.sh, After(s, w, e).workers[v])
    {
      if v != w {
        PlaceKept(s.sh, e.sh, s.workers[v]);
      }
    }
  }

  lemma AloneStays(s: State, w: nat, e: Effect)
    requires forall v :: v in s.workers && v != w ==> !Owns(s.workers[v])
    requires Owns(e.k) ==> IsBusy(e.sh.job.status)
    ensures SingleOwner(After(s, w, e))
  {
    hide Owns;
  }

  /** Nobody gains the job; whoever has it still finds it busy. */
  lemma OthersStay(s: State, w: nat, e: Effect)
    requires SingleOwner(s) && !IsOwner(s, w) && !Owns(e.k) && (HasOwner(s) ==> IsBusy(e.sh.job.status))
    ensures SingleOwner(After(s, w, e)) && (HasOwner(After(s, w, e)) ==> HasOwner(s))
  {
    hide Owns;
    assert forall v :: IsOwner(After(s, w, e), v) ==> IsOwner(s, v) && HasOwner(s);
  }

  lemma WorkByOwner(c: Config, s: State, w: nat, luck: Luck)
    requires SafeInv(s) && IsOwner(s, w) && !IsHazard(s, Work(w, luck))
    ensures
      var e := ActWithLuck(c, s.sh, s.workers[w], luck);
      TurnOk(c, s.sh, e) && SafeInv(After(s, w, e)) && IsSafeStep(s, After(s, w, e))
  {
    hide ActWithLuck, Owns, PlaceOk;
    var e := ActWithLuck(c, s.sh, s.workers[w], luck);
    OwnerIsAlone(s, w);
    OwnerTurn(c, s.sh, s.workers[w], luck);
    AloneStays(s, w, e);
    PlacesKept(s, w, e);
  }

  lemma VisitorIsSafe(s: State, w: nat, luck: Luck, e: Effect)
    requires SafeInv(s) && w in s.workers && !IsOwner(s, w) && VisitOk(s.sh, s.workers[w], luck, e)
    requires Owns(e.k) ==> IsBusy(e.sh.job.status)
    requires s.workers[w].pc.CancellingEarly? && IsDone(luck) ==> !HasOwner(s) && s.sh.job.status != Completed
    requires
      s.workers[w].pc.Claiming? && luck == Proceeds && IsClaimable(s.sh.job, s.workers[w].pc.cutoff) ==> !HasOwner(s)
    ensures IsSafeStep(s, After(s, w, e))
  {
    hide PlaceOk, SingleOwner, HasOwner, Owns;
    if HasOwner(s) {
      BusyWithOwner(s);
    }
    if Owns(e.k) {
      NobodyOwns(s, w, e);
    } else {
      OthersStay(s, w, e);
    }
  }

  lemma NobodyOwns(s: State, w: nat, e: Effect)
    requires !HasOwner(s) && (Owns(e.k) ==> IsBusy(e.sh.job.status))
    ensures SingleOwner(After(s, w, e))
  {
    hide Owns;
    AloneStays(s, w, e);
  }

  lemma WorkByVisitor(c: Config, s: State, w: nat, luck: Luck)
    requires SafeInv(s) && w in s.workers && !IsOwner(s, w) && !IsLapse(c, s, Work(w, luck))
    ensures
      var e := ActWithLuck(c, s.sh, s.workers[w], luck);
      TurnOk(c, s.sh, e) && SafeInv(After(s, w, e)) && IsSafeStep(s, After(s, w, e))
  {
    hide ActWithLuck, Owns, PlaceOk, SingleOwner, HasOwner, VisitOk;
    var e := ActWithLuck(c, s.sh, s.workers[w], luck);
    VisitorTurn(c, s, w, luck);
    VisitorIsSafe(s, w, luck, e);
    PlacesKept(s, w, e);
  }

  lemma WorkIsSafe(c: Config, s: State, w: nat, luck: Luck)
    requires SafeInv(s) && w in s.workers && !IsLapse(c, s, Work(w, luck))
    ensures SafeInv(Step(c, s, Work(w, luck))) && IsSafeStep(s, Step(c, s, Work(w, luck)))
  {
    hide SafeInv, IsSafeStep, Step, IsHazard, Owns, ActWithLuck, TurnOk;
    WorkIs(c, s, w, luck);
    if IsOwner(s, w) {
      WorkByOwner(c, s, w, luck);
    } else {
      WorkByVisitor(c, s, w, luck);
    }
  }

  /** A change of the row by somebody else than a worker. */
  lemma OutsideIsSafe(s: State, s': State)
    requires SafeInv(s) && s'.workers == s.workers
    requires IsTerminal(s.sh.job.status) ==> s'.sh.job.status == s.sh.job.status
    requires HasOwner(s) ==> IsBusy(s'.sh.job.status)
    ensures SafeInv(s') && IsSafeStep(s, s') && (HasOwner(s') <==> HasOwner(s))
  {
    hide Owns, PlaceOk;
    assert forall w :: IsOwner(s', w) <==> IsOwner(s, w);
    assert forall w :: IsOwner(s, w) ==> HasOwner(s);
    assert HasOwner(s') <==> HasOwner(s);
    forall w | w in s.workers
      ensures PlaceOk(s'.sh, s.workers[w])
    {
      PlaceKept(s.sh, s'.sh, s.workers[w]);
    }
  }

  lemma StartIsSafe(c: Config, s: State, w: nat, batchSize: nat)
    requires SafeInv(s) && w !in s.workers
    ensures SafeInv(Step(c, s, Start(w, batchSize))) && IsSafeStep(s, Step(c, s, Start(w, batchSize)))
  {
    hide SingleOwner, HasOwner;
    if HasOwner(s) {
      BusyWithOwner(s);
    }
    OthersStay(s, w, Effect(s.sh, NewWorker(batchSize)));
    PlacesKept(s, w, Effect(s.sh, NewWorker(batchSize)));
  }

  lemma SharedRow(c: Config, s: State, e: Event)
    requires SafeInv(s) && !IsLapse(c, s, e)
    ensures
      var row := StepShared(c, s.sh, e).job;
      && (IsTerminal(s.sh.job.status) ==> row.status == s.sh.job.status)
      && (HasOwner(s) ==> IsBusy(row.status))
  {
    hide PlaceOk, SingleOwner, HasOwner, SameOwnObjects;
    if HasOwner(s) {
      BusyWithOwner(s);
    }
  }

  lemma OutsideRow(c: Config, s: State, e: Event)
    requires SafeInv(s) && !e.Work? && !e.Start? && !IsLapse(c, s, e)
    ensures
      var row := Step(c, s, e).sh.job;
      && (IsTerminal(s.sh.job.status) ==> row.status == s.sh.job.status)
      && (HasOwner(s) ==> IsBusy(row.status))
    ensures Step(c, s, e).workers == s.workers
  {
    hide PlaceOk, SingleOwner, HasOwner, AuditBody, IsReadable, StepShared, Final, ActWithLuck;
    SharedRow(c, s, e);
    if HasOwner(s) {
      BusyWithOwner(s);
    }
  }

  lemma StepKeepsSafe(c: Config, s: State, e: Event)
    requires SafeInv(s) && !IsLapse(c, s, e)
    ensures SafeInv(Step(c, s, e)) && IsSafeStep(s, Step(c, s, e))
  {
    hide SafeInv, IsSafeStep, Step, IsLapse, HasOwner;
    if e.Work? && e.w in s.workers {
      WorkIsSafe(c, s, e.w, e.luck);
    } else if e.Start? && e.w !in s.workers {
      StartIsSafe(c, s, e.w, e.batchSize);
    } else if e.Work? || e.Start? {
      NothingHappens(c, s, e);
      OutsideIsSafe(s, s) by {
        SafeWithOwner(s);
      }
    } else {
      OutsideRow(c, s, e);
      OutsideIsSafe(s, Step(c, s, e));
    }
  }

  lemma SafeWithOwner(s: State)
    requires SafeInv(s)
    ensures HasOwner(s) ==> IsBusy(s.sh.job.status)
  {
    hide PlaceOk, SingleOwner, HasOwner;
    if HasOwner(s) {
      BusyWithOwner(s);
    }
  }

  // ---- The open steps do harm ----------------------------------------------------------

  lemma OwnerOfIdleJob(s: State, w: nat)
    requires IsOwner(s, w) && !IsBusy(s.sh.job.status)
    ensures !SingleOwner(s)
  {
  }

  lemma EarlyCancelWrites(c: Config, sh: Shared, k: Worker, luck: Luck)
    requires k.pc.CancellingEarly? && IsDone(luck)
    ensures ActWithLuck(c, sh, k, luck).sh.job.status == Cancelled
  {
  }

  /** An owner that sees the row change to an idle status. */
  lemma OwnerLosesJob(s: State, s': State, w: nat)
    requires HasOwner(s) && !IsBusy(s'.sh.job.status)
    requires w in s.workers && !Owns(s.workers[w])
    requires forall v :: v in s.workers && v != w ==> v in s'.workers && s'.workers[v] == s.workers[v]
    ensures !SingleOwner(s')
  {
    hide Owns;
    var v :| v in s.workers && Owns(s.workers[v]);
    assert IsOwner(s', v);
    OwnerOfIdleJob(s', v);
  }

  lemma OwnerLosesRow(s: State, s': State)
    requires HasOwner(s) && !IsBusy(s'.sh.job.status) && s'.workers == s.workers
    ensures !SingleOwner(s')
  {
    hide Owns;
    var v :| v in s.workers && Owns(s.workers[v]);
    OwnerOfIdleJob(s', v);
  }

  lemma EarlyCancelIsUnsafe(c: Config, s: State, w: nat, luck: Luck)
    requires SafeInv(s) && w in s.workers && s.workers[w].pc.CancellingEarly? && IsDone(luck)
    requires HasOwner(s) || s.sh.job.status == Completed
    ensures !IsSafeStep(s, Step(c, s, Work(w, luck)))
  {
    hide SingleOwner, HasOwner, PlaceOk, ActWithLuck;
    EarlyCancelWrites(c, s.sh, s.workers[w], luck);
    if HasOwner(s) {
      OwnerLosesJob(s, Step(c, s, Work(w, luck)), w);
    }
  }

  lemma LostEnding(c: Config, sh: Shared, k: Worker)
    requires k.pc.Failing? || k.pc.Cancelling? || k.pc.Completing?
    ensures
      var e := ActWithLuck(c, sh, k, LosesReply);
      && e.k.pc == Catching && !IsBusy(e.sh.job.status)
      && (k.pc.Completing? ==> e.sh.job.status == Completed)
  {
    hide DropChunks;
  }

  lemma LostDeletion(c: Config, sh: Shared, k: Worker, luck: Luck)
    requires IsDeleting(k.pc) && IsRefused(luck)
    ensures
      var e := ActWithLuck(c, sh, k, luck);
      e.k.pc == Catching && e.sh.job == sh.job
  {
    hide ActClaim, ActResume, ActBatch, ActAssemble, ActVerify, DropPage, DropChunks;
    DropKeepsRow(c, sh);
  }

  /** The reply to the write that ends the run is lost, or the deletion after it fails: the catch block runs. */
  lemma LateThrowIsUnsafe(c: Config, s: State, w: nat, luck: Luck)
    requires SafeInv(s) && w in s.workers && IsHazard(s, Work(w, luck)) && !s.workers[w].pc.CancellingEarly?
    ensures !IsSafeStep(s, Step(c, s, Work(w, luck)))
  {
    hide SingleOwner, HasOwner, ActWithLuck;
    var k := s.workers[w];
    if IsDeleting(k.pc) {
      LostDeletion(c, s.sh, k, luck);
    } else {
      LostEnding(c, s.sh, k);
    }
    OwnerOfIdleJob(Step(c, s, Work(w, luck)), w);
  }

  /** A second worker wins a job that has a live owner. */
  lemma SecondClaimIsUnsafe(c: Config, s: State, w: nat)
    requires SafeInv(s) && IsDisorder(c, s, Work(w, Proceeds))
    ensures !IsSafeStep(s, Step(c, s, Work(w, Proceeds)))
  {
    hide PlaceOk, ActResume, ActBatch, ActAssemble, ActVerify, ActClose, DropPage;
    var v :| v in s.workers && Owns(s.workers[v]);
    var s' := Step(c, s, Work(w, Proceeds));
    assert IsOwner(s', w) && IsOwner(s', v) && v != w;
  }

  lemma OutsideDisorderIsUnsafe(c: Config, s: State, e: Event)
    requires SafeInv(s) && IsDisorder(c, s, e) && !e.Work?
    ensures !IsSafeStep(s, Step(c, s, e))
  {
    hide PlaceOk, SingleOwner, HasOwner;
    var s' := Step(c, s, e);
    if HasOwner(s) {
      assert !IsBusy(s'.sh.job.status);
      OwnerLosesRow(s, s');
    }
  }

  /** Each open step does harm whenever it is taken. */
  lemma LapseIsUnsafe(c: Config, s: State, e: Event)
    requires SafeInv(s) && IsLapse(c, s, e)
    ensures !IsSafeStep(s, Step(c, s, e))
  {
    hide SafeInv, IsSafeStep, Step, HasOwner;
    if IsHazard(s, e) {
      if s.workers[e.w].pc.CancellingEarly? {
        EarlyCancelIsUnsafe(c, s, e.w, e.luck);
      } else {
        LateThrowIsUnsafe(c, s, e.w, e.luck);
      }
    } else if e.Work? {
      SecondClaimIsUnsafe(c, s, e.w);
    } else {
      OutsideDisorderIsUnsafe(c, s, e);
    }
  }

  /** A step is safe exactly when it is not one of the open ones. */
  lemma StepIsSafeIff(c: Config, s: State, e: Event)
    requires SafeInv(s)
    ensures IsSafeStep(s, Step(c, s, e)) <==> !IsLapse(c, s, e)
  {
    hide SafeInv, IsSafeStep, Step, IsLapse;
    if IsLapse(c, s, e) {
      LapseIsUnsafe(c, s, e);
    } else {
      StepKeepsSafe(c, s, e);
    }
  }

  /** A guard on the row alone, like the claim's, would make the early cancel safe. */
  lemma GuardedCancelIsSafe(c: Config, s: State, w: nat, luck: Luck)
    requires SafeInv(s) && w in s.workers && s.workers[w].pc.CancellingEarly?
    requires !IsBusy(s.sh.job.status) && s.sh.job.status != Completed
    ensures IsSafeStep(s, Step(c, s, Work(w, luck)))
  {
    hide SafeInv, HasOwner, IsSafeStep, Step;
    SafeWithOwner(s);
    StepIsSafeIff(c, s, Work(w, luck));
  }

  // ---- Every run -------------------------------------------------------------------

  ghost predicate HasNoLapse(c: Config, s: State, events: seq<Event>) {
    forall i :: 0 <= i < |events| ==> !IsLapse(c, Run(c, s, events[..i]), events[i])
  }

  ghost predicate IsSafeRun(c: Config, s: State, events: seq<Event>) {
    forall i :: 0 <= i < |events| ==> IsSafeStep(Run(c, s, events[..i]), Step(c, Run(c, s, events[..i]), events[i]))
  }

  lemma InitIsSafe(c: Config, s: State)
    requires Init(c, s)
    ensures SafeInv(s)
  {
  }

  lemma {:induction false} SafeInvAlways(c: Config, s: State, events: seq<Event>)
    requires Init(c, s) && HasNoLapse(c, s, events)
    ensures SafeInv(Run(c, s, events))
  {
    hide SafeInv, Step, Init, IsLapse;
    if events == [] {
      InitIsSafe(c, s);
    } else {
      var before := events[..|events| - 1];
      assert forall i :: 0 <= i < |before| ==> before[..i] == events[..i];
      SafeInvAlways(c, s, before);
      StepKeepsSafe(c, Run(c, s, before), events[|events| - 1]);
    }
  }

  lemma NoLapseBefore(c: Config, s: State, events: seq<Event>, n: nat)
    requires n <= |events| && HasNoLapse(c, s, events)
    ensures HasNoLapse(c, s, events[..n])
  {
    hide IsLapse, Run;
    assert forall i :: 0 <= i < n ==> events[..n][..i] == events[..i];
  }

  lemma NoLapseIsSafe(c: Config, s: State, events: seq<Event>)
    requires Init(c, s) && HasNoLapse(c, s, events)
    ensures IsSafeRun(c, s, events)
  {
    hide SafeInv, Step, Init, IsLapse, Run, IsSafeStep;
    forall i | 0 <= i < |events|
      ensures IsSafeStep(Run(c, s, events[..i]), Step(c, Run(c, s, events[..i]), events[i]))
    {
      NoLapseBefore(c, s, events, i);
      SafeInvAlways(c, s, events[..i]);
      StepKeepsSafe(c, Run(c, s, events[..i]), events[i]);
    }
  }

  lemma {:induction false} SafeHasNoLapse(c: Config, s: State, events: seq<Event>)
    requires Init(c, s) && IsSafeRun(c, s, events)
    ensures HasNoLapse(c, s, events)
  {
    hide SafeInv, Step, Init, IsLapse, Run, IsSafeStep;
    if events != [] {
      var before := events[..|events| - 1];
      assert forall i :: 0 <= i < |before| ==> before[..i] == events[..i];
      SafeHasNoLapse(c, s, before);
      SafeInvAlways(c, s, before);
      StepIsSafeIff(c, Run(c, s, before), events[|events| - 1]);
    }
  }

  /** Over every run, with no assumption on timing: each step leaves a single owner, busy while it owns, and terminal
      statuses as they were, exactly when no step of the run is one the code leaves open. */
  lemma OwnershipExactly(c: Config, s: State, events: seq<Event>)
    requires Init(c, s)
    ensures IsSafeRun(c, s, events) <==> HasNoLapse(c, s, events)
  {
    hide IsSafeRun, HasNoLapse, Init;
    if HasNoLapse(c, s, events) {
      NoLapseIsSafe(c, s, events);
    }
    if IsSafeRun(c, s, events) {
      SafeHasNoLapse(c, s, events);
    }
  }
}
