/** Whether the stored file is the text that the latest verification passed, over every run. */
module Audited {
  import opened Common
  import opened Csv
  import opened RecordSource
  import opened Storage
  import opened Resume
  import opened Verification
  import opened Jobs
  import opened Protocol
  import opened Ownership
  import Completion
  import CsvParser

  /** The latest report vouches for a text that is not the stored one. */
  predicate Misvouches(reports: seq<Report>, body: Option<string>) {
    reports != [] && reports[|reports| - 1].result.Passed() && body != Some(reports[|reports| - 1].body)
  }

  /** A passing latest report was computed from the stored file. */
  predicate IsAudited(c: Config, sh: Shared) {
    !Misvouches(sh.reports, Final(c, sh))
  }

  /** The two kinds of step that part them: publishing another text over a passing report, and recording a passing
      report of a text that is no longer the stored one. */
  predicate IsDrift(c: Config, s: State, e: Event) {
    match e
    case Work(w, luck) =>
      w in s.workers && IsDone(luck) && (
        match s.workers[w].pc
        case Assembling(batches, next, written) => next > batches && Misvouches(s.sh.reports, Some(written))
        case Recording(report) => report.result.Passed() && Final(c, s.sh) != Some(report.body)
        case _ => false)
    case Record(id) => id in s.audits && s.audits[id].result.Passed() && Final(c, s.sh) != Some(s.audits[id].body)
    case _ => false
  }

  predicate SameFile(c: Config, sh: Shared, sh': Shared) {
    sh'.reports == sh.reports && Final(c, sh') == Final(c, sh)
  }

  lemma ClaimFile(c: Config, sh: Shared, k: Worker)
    requires IsClaiming(k.pc)
    ensures SameFile(c, sh, ActClaim(c, sh, k).sh)
  {
  }

  lemma ResumeFile(c: Config, sh: Shared, k: Worker)
    ensures SameFile(c, sh, ActResume(sh, k).sh)
  {
    hide LoadResume, Ordered;
  }

  lemma BatchFile(c: Config, sh: Shared, k: Worker)
    requires c.Valid() && IsBatching(k.pc)
    ensures SameFile(c, sh, ActBatch(c, sh, k).sh)
  {
    hide FetchRecordBatch, SerializeChunk, OwnKey, Chunk;
    if k.pc.Putting? {
      ChunkAfterPut(c, sh, k.batch, SerializeChunk(k.pc.rows), 0);
    }
  }

  lemma AssembleFile(c: Config, sh: Shared, k: Worker)
    requires IsAssembling(k.pc)
    ensures
      var sh' := ActAssemble(c, sh, k).sh;
      if k.pc.Assembling? && k.pc.next > k.pc.batches then
        sh'.reports == sh.reports && Final(c, sh') == Some(k.pc.written)
      else SameFile(c, sh, sh')
  {
    hide LoadResume, Ordered, CsvHeader, Chunk;
  }

  lemma VerifyFile(c: Config, sh: Shared, k: Worker)
    requires IsVerifying(k.pc)
    ensures
      var sh' := ActVerify(c, sh, k).sh;
      if k.pc.Recording? then sh'.reports == sh.reports + [k.pc.report] && Final(c, sh') == Final(c, sh)
      else SameFile(c, sh, sh')
  {
    hide AuditBody, IsReadable;
  }

  lemma CloseFile(c: Config, sh: Shared, k: Worker)
    requires c.Valid() && !k.pc.Recording?
    ensures SameFile(c, sh, ActClose(c, sh, k).sh)
  {
    hide DropChunks, Final;
    DropKeepsRow(c, sh);
    ChunkAfterDrop(c, sh, 0);
    Completion.CloseKeepsFinal(c, sh, k);
  }

  lemma AppendedReport(reports: seq<Report>, report: Report, body: Option<string>)
    ensures Misvouches(reports + [report], body) <==> report.result.Passed() && body != Some(report.body)
  {
  }

  lemma ActFile(c: Config, s: State, w: nat)
    requires c.Valid() && w in s.workers && IsAudited(c, s.sh)
    ensures IsAudited(c, Act(c, s.sh, s.workers[w]).sh) <==> !IsDrift(c, s, Work(w, Proceeds))
  {
    hide ActClaim, ActResume, ActBatch, ActAssemble, ActVerify, ActClose, Final, Misvouches;
    var k := s.workers[w];
    if IsClaiming(k.pc) {
      ClaimFile(c, s.sh, k);
    } else if IsResuming(k.pc) {
      ResumeFile(c, s.sh, k);
    } else if IsBatching(k.pc) {
      BatchFile(c, s.sh, k);
    } else if IsAssembling(k.pc) {
      AssembleFile(c, s.sh, k);
    } else if IsVerifying(k.pc) {
      VerifyFile(c, s.sh, k);
      if k.pc.Recording? {
        AppendedReport(s.sh.reports, k.pc.report, Final(c, s.sh));
      }
    } else {
      CloseFile(c, s.sh, k);
    }
  }

  lemma WorkFile(c: Config, s: State, w: nat, luck: Luck)
    requires c.Valid() && w in s.workers && IsAudited(c, s.sh)
    ensures IsAudited(c, ActWithLuck(c, s.sh, s.workers[w], luck).sh) <==> !IsDrift(c, s, Work(w, luck))
  {
    hide Act, DropPage, Final, Misvouches;
    ActFile(c, s, w);
    if luck.DeletesPage? {
      PageKeepsRow(c, s.sh, luck.keys);
      ChunkAfterPage(c, s.sh, luck.keys, 0);
    }
  }

  lemma OutsideFile(c: Config, s: State, e: Event)
    requires c.Valid() && IsAudited(c, s.sh) && !e.Work?
    ensures IsAudited(c, Step(c, s, e).sh) <==> !IsDrift(c, s, e)
  {
    hide Step, Misvouches;
    if e.Record? && e.id in s.audits {
      RecordAppends(c, s, e.id);
      AppendedReport(s.sh.reports, s.audits[e.id], Final(c, s.sh));
    } else {
      hide Final;
      QuietFile(c, s, e);
    }
  }

  lemma QuietFile(c: Config, s: State, e: Event)
    requires c.Valid() && !e.Work? && !(e.Record? && e.id in s.audits)
    ensures SameFile(c, s.sh, Step(c, s, e).sh)
  {
    hide StepShared, ActWithLuck, AuditBody, IsReadable;
    SharedStepKeeps(c, s.sh, e);
  }

  lemma StepKeepsAuditIff(c: Config, s: State, e: Event)
    requires c.Valid() && IsAudited(c, s.sh)
    ensures IsAudited(c, Step(c, s, e).sh) <==> !IsDrift(c, s, e)
  {
    hide Step, IsAudited, ActWithLuck, Misvouches, Final;
    if e.Work? {
      if e.w in s.workers {
        WorkIs(c, s, e.w, e.luck);
        WorkFile(c, s, e.w, e.luck);
      } else {
        NothingHappens(c, s, e);
      }
    } else {
      OutsideFile(c, s, e);
    }
  }

  ghost predicate AlwaysAudited(c: Config, s: State, events: seq<Event>) {
    forall n :: 0 <= n <= |events| ==> IsAudited(c, Run(c, s, events[..n]).sh)
  }

  ghost predicate NeverDrifts(c: Config, s: State, events: seq<Event>) {
    forall i :: 0 <= i < |events| ==> !IsDrift(c, Run(c, s, events[..i]), events[i])
  }

  lemma {:induction false} AuditedWithoutDrift(c: Config, s: State, events: seq<Event>)
    requires c.Valid() && Init(c, s) && NeverDrifts(c, s, events)
    ensures IsAudited(c, Run(c, s, events).sh)
  {
    hide Step, IsDrift;
    if events != [] {
      var before := events[..|events| - 1];
      assert forall i :: 0 <= i < |before| ==> before[..i] == events[..i];
      hide IsAudited, Init;
      AuditedWithoutDrift(c, s, before);
      StepKeepsAuditIff(c, Run(c, s, before), events[|events| - 1]);
    }
  }

  /** Over every run, whatever overlaps and whatever happens to the table: at every point a passing latest report
      speaks of the stored file, exactly when no step publishes another text over a passing report and none records a
      passing report of a text that has been replaced. */
  lemma AuditedExactly(c: Config, s: State, events: seq<Event>)
    requires c.Valid() && Init(c, s)
    ensures AlwaysAudited(c, s, events) <==> NeverDrifts(c, s, events)
  {
    hide Run, Init, IsAudited, IsDrift, Step;
    if AlwaysAudited(c, s, events) {
      forall i | 0 <= i < |events|
        ensures !IsDrift(c, Run(c, s, events[..i]), events[i])
      {
        RunOne(c, s, events, i);
        StepKeepsAuditIff(c, Run(c, s, events[..i]), events[i]);
      }
    }
    if NeverDrifts(c, s, events) {
      forall n | 0 <= n <= |events|
        ensures IsAudited(c, Run(c, s, events[..n]).sh)
      {
        assert forall i :: 0 <= i < n ==> events[..n][..i] == events[..i];
        AuditedWithoutDrift(c, s, events[..n]);
      }
    }
  }

  /** So without such a step the file behind a download link is a sound export, overlap and table writes
      notwithstanding: the right header, `limit` rows, ids ascending within the snapshot. */
  lemma LinkedFileIsSound(c: Config, s: State, events: seq<Event>)
    requires c.Valid() && Init(c, s) && NeverDrifts(c, s, events)
    requires var sh := Run(c, s, events).sh; GetExportDownload(sh.job, sh.reports).Success?
    ensures
      var sh := Run(c, s, events).sh;
      && GetExportDownload(sh.job, sh.reports).value == FinalKey(c.jobId) && Final(c, sh).Some?
      && exists size :: IsSoundFile(c.readId, CsvParser.Parse(Final(c, sh).value), size, c.limit, c.snapshotMaxId)
  {
    hide Run, Init, IsDrift, IsSoundFile, Final, CsvParser.Parse, Counters, FinalKey;
    var sh := Run(c, s, events).sh;
    AuditedWithoutDrift(c, s, events);
    Completion.CompletionInvAlways(c, s, events);
    Completion.CompletedWasVerified(c, s, events);
    var r := sh.reports[|sh.reports| - 1];
    assert r in sh.reports;
    AuditPassesIff(c.readId, CsvParser.Parse(r.body), r.result.fileBytes, c.limit, c.snapshotMaxId);
    assert IsSoundFile(c.readId, CsvParser.Parse(Final(c, sh).value), r.result.fileBytes, c.limit, c.snapshotMaxId);
  }

  // ---- An audit asked for by a user -----------------------------------------------------------

  lemma AuditBodyIsTrue(c: Config, body: string, size: nat)
    ensures AuditBody(c, body, size).body == body
    ensures
      IsTrueResult(c.readId, CsvParser.Parse(body), size, c.limit, c.snapshotMaxId, AuditBody(c, body, size).result)
  {
    hide CsvParser.Parse, Audit, IsTrueResult;
    AuditMeans(c.readId, CsvParser.Parse(body), size, c.limit, c.snapshotMaxId);
  }

  lemma ReverifyReads(c: Config, s: State, id: nat, size: nat)
    requires id !in s.audits
    ensures
      var read := Step(c, s, Reverify(id, size));
      && read.sh == s.sh && read.workers == s.workers
      && (id in read.audits <==>
           s.sh.job.fileKey == Some(FinalKey(c.jobId)) && Final(c, s.sh).Some? && IsReadable(Final(c, s.sh).value))
      && (id in read.audits ==> read.audits[id] == AuditBody(c, Final(c, s.sh).value, size))
  {
    hide Final, IsReadable, AuditBody, FinalKey, StepShared, ActWithLuck;
  }

  lemma ReadableMeans(body: string)
    ensures IsReadable(body) <==> !IsRagged(CsvParser.Parse(body))
  {
    hide IsRagged, CsvParser.Parse;
  }

  /** A verification on demand reads the file exactly for a job with its own file key whose file is there and can be
      read to its end. The report it makes tells the truth about the text that was read. */
  lemma DemandedAuditIsTrue(c: Config, s: State, id: nat, size: nat)
    requires id !in s.audits
    ensures
      var read := Step(c, s, Reverify(id, size));
      && read.sh == s.sh && read.workers == s.workers
      && (id in read.audits <==>
           && s.sh.job.fileKey == Some("exports/" + c.jobId + "/export-" + c.jobId + ".csv")
           && Final(c, s.sh).Some? && !IsRagged(CsvParser.Parse(Final(c, s.sh).value)))
      && (id in read.audits ==>
           && read.audits[id].body == Final(c, s.sh).value
           && IsTrueResult(c.readId, CsvParser.Parse(read.audits[id].body), size, c.limit, c.snapshotMaxId,
                read.audits[id].result))
  {
    hide Final, IsRagged, IsReadable, AuditBody, CsvParser.Parse, IsTrueResult, FinalKey, Step;
    FinalKeyForm(c.jobId);
    ReverifyReads(c, s, id, size);
    if Final(c, s.sh).Some? {
      ReadableMeans(Final(c, s.sh).value);
      AuditBodyIsTrue(c, Final(c, s.sh).value, size);
    }
  }

  /** Recording appends the report that was made and touches nothing else. */
  lemma RecordAppends(c: Config, s: State, id: nat)
    requires id in s.audits
    ensures
      var after := Step(c, s, Event.Record(id));
      && after.sh == s.sh.(reports := s.sh.reports + [s.audits[id]])
      && after.audits == s.audits - {id} && after.workers == s.workers
  {
    hide StepShared, ActWithLuck;
  }
}
