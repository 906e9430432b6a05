/** A worker left to itself: nobody else writes, no request fails, nothing crashes. */
module Uninterrupted {
  import opened Common
  import opened Csv
  import opened RecordSource
  import opened Storage
  import opened Resume
  import opened Verification
  import opened Jobs
  import opened Protocol

  // ---- The run ends ---------------------------------------------------------------

  function Phase(pc: Pc): nat {
    match pc
    case Reading => 20
    case CancellingEarly => 1
    case Admitted => 19
    case Claiming(_) => 18
    case Stamping => 17
    case Loading => 16
    case Reconciling(_) => 15
    case Correcting(_) => 14
    case LoopHead => 13
    case Fetching => 13
    case Putting(_) => 13
    case Confirming(_) => 13
    case Committing(_) => 13
    case CrossChecking => 12
    case Promoting(_) => 11
    case Assembling(_, _, _) => 10
    case Sizing => 9
    case Heading => 8
    case Auditing(_) => 7
    case Recording(_) => 6
    case NotingKey => 5
    case Completing => 5
    case Cancelling => 4
    case Cleaning => 3
    case Discarding => 3
    case Failing(_) => 2
    case Catching => 1
    case Ended(_) => 0
  }

  function Left(c: Config, count: nat): nat {
    if count < c.limit then c.limit - count else 0
  }

  /** What is left to do within a phase: rows to write, or chunks to read. */
  function Remaining(c: Config, k: Worker): nat {
    if IsBatching(k.pc) then Left(c, k.count)
    else if k.pc.Assembling? && k.pc.next <= k.pc.batches then k.pc.batches - k.pc.next + 1
    else 0
  }

  function Turn(c: Config, k: Worker): nat {
    match k.pc
    case LoopHead => if k.count < c.limit then 5 else 0
    case Fetching => 4
    case Putting(_) => 3
    case Confirming(_) => 2
    case Committing(_) => 1
    case _ => 0
  }

  predicate Descends(c: Config, k: Worker, k': Worker) {
    || Phase(k'.pc) < Phase(k.pc)
    || (Phase(k'.pc) == Phase(k.pc) && Remaining(c, k') < Remaining(c, k))
    || (Phase(k'.pc) == Phase(k.pc) && Remaining(c, k') == Remaining(c, k) && Turn(c, k') < Turn(c, k))
  }

  lemma BatchDescends(c: Config, sh: Shared, k: Worker)
    requires IsBatching(k.pc)
    ensures Descends(c, k, ActBatch(c, sh, k).k)
  {
    hide FetchRecordBatch, SerializeChunk, Chunk;
  }

  lemma OpeningDescends(c: Config, sh: Shared, k: Worker)
    ensures IsClaiming(k.pc) ==> Descends(c, k, ActClaim(c, sh, k).k)
    ensures IsResuming(k.pc) ==> Descends(c, k, ActResume(sh, k).k)
  {
    hide Remaining, Turn, LoadResume, Ordered;
  }

  lemma ChunkDescends(c: Config, sh: Shared, k: Worker)
    requires k.pc.Assembling?
    ensures Descends(c, k, ActAssemble(c, sh, k).k)
  {
    hide Turn, LoadResume, Ordered, Chunk, CsvHeader, FinalKey;
  }

  lemma CheckDescends(c: Config, sh: Shared, k: Worker)
    requires k.pc.CrossChecking? || k.pc.Promoting?
    ensures Phase(ActAssemble(c, sh, k).k.pc) < Phase(k.pc)
  {
    hide LoadResume, Ordered, CsvHeader;
  }

  lemma AssembleDescends(c: Config, sh: Shared, k: Worker)
    requires IsAssembling(k.pc)
    ensures Descends(c, k, ActAssemble(c, sh, k).k)
  {
    hide Phase, Remaining, Turn, ActAssemble;
    if k.pc.Assembling? {
      ChunkDescends(c, sh, k);
    } else {
      CheckDescends(c, sh, k);
    }
  }

  lemma EndingDescends(c: Config, sh: Shared, k: Worker)
    requires !IsClaiming(k.pc) && !IsResuming(k.pc) && !IsBatching(k.pc) && !IsAssembling(k.pc) && !k.pc.Ended?
    ensures IsVerifying(k.pc) ==> Descends(c, k, ActVerify(c, sh, k).k)
    ensures !IsVerifying(k.pc) ==> Descends(c, k, ActClose(c, sh, k).k)
  {
    hide Remaining, Turn, AuditBody, IsReadable, Final;
  }

  /** Every request that succeeds brings the run nearer to its end. */
  lemma ActDescends(c: Config, sh: Shared, k: Worker)
    requires !k.pc.Ended?
    ensures Descends(c, k, Act(c, sh, k).k)
  {
    hide Descends, ActClaim, ActResume, ActBatch, ActAssemble, ActVerify, ActClose;
    if IsClaiming(k.pc) || IsResuming(k.pc) {
      OpeningDescends(c, sh, k);
    } else if IsBatching(k.pc) {
      BatchDescends(c, sh, k);
    } else if IsAssembling(k.pc) {
      AssembleDescends(c, sh, k);
    } else {
      EndingDescends(c, sh, k);
    }
  }

  /** The whole run of `runExportJob` from where worker `k` stands. */
  function RunAlone(c: Config, sh: Shared, k: Worker): (e: Effect)
    ensures e.k.pc.Ended?
    decreases Phase(k.pc), Remaining(c, k), Turn(c, k)
  {
    if k.pc.Ended? then Effect(sh, k)
    else
      ActDescends(c, sh, k);
      var e := Act(c, sh, k);
      RunAlone(c, e.sh, e.k)
  }

  // ---- It is a run of the machine -----------------------------------------------------

  function Repeat(e: Event, n: nat): (events: seq<Event>)
    ensures |events| == n
  {
    seq(n, i => e)
  }

  lemma {:induction false} RunFromFirst(c: Config, s: State, e: Event, events: seq<Event>)
    ensures Run(c, s, [e] + events) == Run(c, Step(c, s, e), events)
  {
    hide Step;
    if events == [] {
      assert Run(c, s, [e]) == Step(c, Run(c, s, [e][..0]), e);
      assert [e] + events == [e];
    } else {
      assert ([e] + events)[..|events|] == [e] + events[..|events| - 1];
      RunFromFirst(c, s, e, events[..|events| - 1]);
    }
  }

  lemma {:induction false} RunInTwo(c: Config, s: State, a: seq<Event>, b: seq<Event>)
    ensures Run(c, s, a + b) == Run(c, Run(c, s, a), b)
  {
    hide Step;
    if b == [] {
      assert a + b == a;
    } else {
      assert (a + b)[..|a + b| - 1] == a + b[..|b| - 1];
      RunInTwo(c, s, a, b[..|b| - 1]);
    }
  }

  ghost predicate Reaches(c: Config, s: State, w: nat, n: nat, e: Effect) {
    Run(c, s, Repeat(Work(w, Proceeds), n)) == s.(sh := e.sh, workers := s.workers[w := e.k])
  }

  /** What `RunAlone` computes is where the machine gets when only worker `w` moves and no request fails. */
  lemma {:induction false} AloneIsRun(c: Config, s: State, w: nat) returns (n: nat)
    requires w in s.workers
    ensures Reaches(c, s, w, n, RunAlone(c, s.sh, s.workers[w]))
    decreases Phase(s.workers[w].pc), Remaining(c, s.workers[w]), Turn(c, s.workers[w])
  {
    hide Act, Phase, Remaining, Turn;
    var k := s.workers[w];
    if k.pc.Ended? {
      n := 0;
      assert s.workers[w := k] == s.workers;
    } else {
      ActDescends(c, s.sh, k);
      var s' := Step(c, s, Work(w, Proceeds));
      var m := AloneIsRun(c, s', w);
      n := m + 1;
      RunFromFirst(c, s, Work(w, Proceeds), Repeat(Work(w, Proceeds), m));
      assert Repeat(Work(w, Proceeds), n) == [Work(w, Proceeds)] + Repeat(Work(w, Proceeds), m);
      var e := RunAlone(c, s.sh, k);
      assert s'.workers[w := e.k] == s.workers[w := e.k];
    }
  }
}
