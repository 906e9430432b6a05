/** A crash in VERIFYING: no claim, resume, cancellation or sweep covers that status, so the job stays where it is. */
module Stranded {
  import opened Common
  import opened RecordSource
  import opened Storage
  import opened Resume
  import opened Jobs
  import opened Protocol
  import opened Uninterrupted
  import opened Ownership
  import DataSafety
  import Delivery
  import Terminal

  /** A worker that has not got the job. */
  predicate StandsBy(k: Worker) {
    k.pc.Reading? || k.pc.Admitted? || k.pc.Claiming? || k.pc.Ended?
  }

  /** The job is in VERIFYING, nobody works on it, and nobody asked anything before it came to this. */
  ghost predicate IsStranded(s: State) {
    && s.sh.job.status == Verifying && !s.sh.job.cancelRequested && s.queued && s.requests == map[]
    && forall w :: w in s.workers ==> StandsBy(s.workers[w])
  }

  lemma StandsByStill(c: Config, sh: Shared, k: Worker, luck: Luck)
    requires sh.job.status == Verifying && !sh.job.cancelRequested && StandsBy(k)
    ensures var e := ActWithLuck(c, sh, k, luck); e.sh == sh && StandsBy(e.k)
  {
    hide ActResume, ActBatch, ActAssemble, ActVerify, ActClose, DropPage;
  }

  lemma SharedStays(c: Config, sh: Shared, e: Event)
    requires sh.job.status == Verifying
    ensures StepShared(c, sh, e).job == sh.job
  {
    hide SameOwnObjects;
  }

  lemma StepStaysStranded(c: Config, s: State, e: Event)
    requires IsStranded(s)
    ensures
      var s' := Step(c, s, e);
      IsStranded(s') && s'.sh.job == s.sh.job && s'.sh.log == s.sh.log && Final(c, s'.sh) == Final(c, s.sh)
  {
    hide ActWithLuck, StepShared, StandsBy, AuditBody, IsReadable;
    SharedStays(c, s.sh, e);
    SharedStepKeeps(c, s.sh, e);
    NewStandsBy(if e.Start? then e.batchSize else 0);
    if e.Work? && e.w in s.workers {
      StandsByStill(c, s.sh, s.workers[e.w], e.luck);
    }
  }

  lemma NewStandsBy(size: nat)
    ensures StandsBy(NewWorker(size))
  {
  }

  /** Whatever happens from there on - workers, requests, sweeps, time - the row, the checkpoints and the file stay. */
  lemma {:induction false} StrandedForGood(c: Config, s: State, events: seq<Event>)
    requires IsStranded(s)
    ensures
      var s' := Run(c, s, events);
      IsStranded(s') && s'.sh.job == s.sh.job && s'.sh.log == s.sh.log && Final(c, s'.sh) == Final(c, s.sh)
  {
    hide Step, IsStranded;
    if events != [] {
      StrandedForGood(c, s, events[..|events| - 1]);
      StepStaysStranded(c, Run(c, s, events[..|events| - 1]), events[|events| - 1]);
    }
  }

  lemma CrashStands(c: Config, s: State)
    requires s.workers.Keys == {1} && s.sh.job.status == Verifying && !s.sh.job.cancelRequested
    requires s.queued && s.requests == map[] && !s.workers[1].pc.Ended?
    ensures IsStranded(Step(c, s, Work(1, Crashes)))
  {
    hide Act, DropPage;
  }

  /** It comes to this: any export over a stable table can crash just before the write that completes it, and its job
      then stays in VERIFYING through everything that may follow. */
  lemma CrashCanStrand(c: Config, t: Table, size: nat, s: State) returns (n: nat)
    requires Delivery.Assumptions(c, t, NewWorker(size)) && Init(c, s) && DataSafety.IsStable(c, t, s.sh.table)
    ensures forall later: seq<Event> ::
      Run(c, s, Terminal.ToCompleting(size, n) + [Work(1, Crashes)] + later).sh.job.status == Verifying
  {
    hide DataSafety.HasTarget, Delivery.ReadsDecimals, DataSafety.IsStable;
    hide Run, Init, Terminal.ToCompleting, IsStranded;
    n := Terminal.CompletingIsReached(c, t, size, s);
    var events := Terminal.ToCompleting(size, n);
    CrashStands(c, Run(c, s, events));
    hide Step;
    Terminal.RunThree(c, s, events, Work(1, Crashes), Tick, Tick);
    forall later: seq<Event>
      ensures Run(c, s, events + [Work(1, Crashes)] + later).sh.job.status == Verifying
    {
      RunInTwo(c, s, events + [Work(1, Crashes)], later);
      StrandedForGood(c, Run(c, s, events + [Work(1, Crashes)]), later);
      StrandedIsVerifying(Run(c, s, events + [Work(1, Crashes)] + later));
    }
  }

  lemma StrandedIsVerifying(s: State)
    requires IsStranded(s)
    ensures s.sh.job.status == Verifying
  {
  }
}
