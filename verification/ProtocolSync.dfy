// The steps by which a poll brings a row up to date with the scanner.
module ProtocolSync {
  import opened Collections
  import opened ScanTasks
  import opened ScanRecords
  import opened DispatchProtocol
  import opened ProtocolInvariant
  import opened ProtocolSteps
  import opened ProtocolQuiet
  import opened ProtocolWrites
  import Store = JobStore
  import Go = GoEngine

  // A poll that has reached its write knows the row was started, and when.
  predicate AtWrite(pc: Pc) {
    pc.PollSynchronize? || pc.PollFail?
  }

  lemma KnownRow(env: Env, s: System, p: Proc)
    requires ServingOk(env, s, p) && AtWrite(p.pc)
    ensures p.scan in s.db.jobs && ScannerKnown(s, p)
  {}

  // -------------------------------------------------------------------- failure

  function FailedJob(j: Job, code: FailureCode, at: Time): Job {
    j.(status := FAILED, failure := Some(code), finishedAt := Some(at), updatedAt := at)
  }

  function FailedEvent(id: Id, owner: Subject, j: Job, code: FailureCode): AuditEvent {
    ServiceEvent(id, owner, ScanFailed, Failure, Code(code), j.allowedTarget)
  }

  // The WHERE clause also admits QUEUED, but a poll only gets here with a
  // started row, so the lease columns are clear and the row is RUNNING.
  lemma FailedApplies(env: Env, s: System, p: Proc, code: FailureCode, at: Time)
    requires JobsOk(s) && ServingOk(env, s, p) && AtWrite(p.pc) && p.since <= at <= s.clock
    requires p.scan in s.db.jobs && IsActive(s.db.jobs[p.scan])
    ensures var j := s.db.jobs[p.scan];
      && j.status == RUNNING
      && MarkSynchronizationFailed(s.db, p.scan, p.owner, code, at)
           == Applied(WriteRow(s.db, p.scan, FailedJob(j, code, at), Some(FailedEvent(p.scan, p.owner, j, code))))
      && JobEvolves(j, FailedJob(j, code, at))
  {
    hide HistoryOk, StoredOk, PcOk;
    assert JobOk(s, p.scan);
    KnownRow(env, s, p);
    var j := s.db.jobs[p.scan];
    PutApplies(s, p.scan, FailedJob(j, code, at), Some(FailedEvent(p.scan, p.owner, j, code)));
  }

  lemma FailedRowOk(env: Env, s: System, t: System, p: Proc, code: FailureCode, at: Time)
    requires JobsOk(s) && ServingOk(env, s, p) && AtWrite(p.pc) && p.since <= at <= s.clock
    requires p.scan in s.db.jobs && IsActive(s.db.jobs[p.scan])
    requires RowWritten(s, t, p.scan, Some(FailedEvent(p.scan, p.owner, s.db.jobs[p.scan], code)))
    requires t.db.jobs[p.scan] == FailedJob(s.db.jobs[p.scan], code, at)
    requires ResultsOf(t.db, p.scan) == ResultsOf(s.db, p.scan)
    ensures JobOk(t, p.scan)
  {
    hide HistoryOk, StoredOk, ResultsOf, EventsOf, PcOk;
    assert JobOk(s, p.scan);
    KnownRow(env, s, p);
    WrittenHistory(s, t, p.scan, FailedEvent(p.scan, p.owner, s.db.jobs[p.scan], code));
    StillNothingStored(s, t, p.scan);
  }

  lemma FailWritePreserves(env: Env, s: System, pid: Id, code: FailureCode, at: Time, next: Pc)
    requires pid in s.procs && AtWrite(s.procs[pid].pc) && s.procs[pid].since <= at <= s.clock
    requires next.PollRefresh? && Inv(env, s)
    ensures Keeps(env, s, Settle(s, pid,
              MarkSynchronizationFailed(s.db, s.procs[pid].scan, s.procs[pid].owner, code, at), next, next))
  {
    hide Evolves, PcOkHere, ServingOk, LinksOk, JobOk, Go.EngineOk, ProcsOk, LocksOk, RoomOk, ResponsesOk,
      ClaimsOk, StrayOk, ScansDistinct, Bystander, JobsOk, RowWritten, Move, FailedJob, FailedEvent, Settle, JobEvolves;
    PcOf(env, s, pid);
    var p := s.procs[pid];
    ServingScan(env, s, p);
    PlainPcOk(env, s, p, next);
    var j := s.db.jobs[p.scan];
    if IsActive(j) {
      FailedApplies(env, s, p, code, at);
      var e := FailedEvent(p.scan, p.owner, j, code);
      FailedEventJob(p.scan, p.owner, j, code);
      SettledWrite(s, pid, p.scan, FailedJob(j, code, at), Some(e), next, next);
      var t := Settle(s, pid, MarkSynchronizationFailed(s.db, p.scan, p.owner, code, at), next, next);
      FailedRowOk(env, s, t, p, code, at);
      WriteFinish(env, s, t, pid, p.scan, Some(e), next);
    } else {
      UnchangedSettles(env, s, pid, next, next);
    }
  }

  lemma FailedEventJob(id: Id, owner: Subject, j: Job, code: FailureCode)
    ensures FailedEvent(id, owner, j, code).job == id
  {}

  // ------------------------------------------------------------------- completion

  function CompletedJob(j: Job, result: ScanResult, at: Time): Job {
    j.(status := COMPLETED, duration := Some(result.duration), finishedAt := Some(at), updatedAt := at)
  }

  function CompletedEvent(id: Id, owner: Subject, j: Job, result: ScanResult): AuditEvent {
    ServiceEvent(id, owner, ScanCompleted, Success, Counts(|result.results|, result.duration), j.allowedTarget)
  }

  function CompletedDb(db: Database, id: Id, j: Job, event: AuditEvent, result: ScanResult): Database {
    var after := WriteRow(db, id, j, Some(event));
    after.(results := after.results[id := InsertResults(ResultsOf(db, id), result.results)])
  }

  // What a completed scanner answer brings for a started row.
  ghost predicate Delivers(s: System, p: Proc, result: ScanResult)
    requires p.scan in s.db.jobs
  {
    var j := s.db.jobs[p.scan];
    && j.scannerId.Some? && j.scannerId.value in s.engine.origin
    && CompleteOutput(result.results, s.engine.origin[j.scannerId.value].config)
    && ValidPins(s.engine.origin[j.scannerId.value].config.pins)
    && s.engine.origin[j.scannerId.value].config.request == j.request
    && result.duration >= 0
  }

  lemma AnswerDelivers(env: Env, s: System, p: Proc, scannerId: Id, answer: Store.ScanJob)
    requires LinksOk(env, s) && JobsOk(s) && ServingOk(env, s, p)
    requires p.pc == PollSynchronize(scannerId, answer) && answer.status == Store.Completed
    ensures p.scan in s.db.jobs && answer.result.Some? && Delivers(s, p, answer.result.value)
  {
    hide CompleteOutput, MessageOk, ReplyOk, HistoryOk, StoredOk, RowOk, RuleAdmits;
    assert JobOk(s, p.scan);
    assert OriginOk(s, scannerId);
    assert AttachmentOk(env, s, s.creators[scannerId]);
  }

  lemma CompletedApplies(env: Env, s: System, p: Proc, result: ScanResult, at: Time)
    requires JobsOk(s) && ServingOk(env, s, p) && AtWrite(p.pc) && p.since <= at <= s.clock
    requires p.scan in s.db.jobs && IsActive(s.db.jobs[p.scan]) && result.duration >= 0
    ensures var j := s.db.jobs[p.scan];
      var e := CompletedEvent(p.scan, p.owner, j, result);
      && j.status == RUNNING
      && SynchronizeCompleted(s.db, p.scan, p.owner, result, at)
           == Applied(CompletedDb(s.db, p.scan, CompletedJob(j, result, at), e, result))
      && JobEvolves(j, CompletedJob(j, result, at))
  {
    hide HistoryOk, StoredOk, PcOk, InsertResults;
    assert JobOk(s, p.scan);
    KnownRow(env, s, p);
    var j := s.db.jobs[p.scan];
    PutApplies(s, p.scan, CompletedJob(j, result, at), Some(CompletedEvent(p.scan, p.owner, j, result)));
  }

  // Every row of the answer is inserted; none is dropped as a conflict.
  lemma ResultsArriveInFull(s: System, p: Proc, result: ScanResult)
    requires p.scan in s.db.jobs && Delivers(s, p, result) && ValidRange(s.db.jobs[p.scan].request)
    requires ResultsOf(s.db, p.scan) == map[]
    ensures var table := InsertResults(ResultsOf(s.db, p.scan), result.results);
      && FullResults(table, s.engine.origin[s.db.jobs[p.scan].scannerId.value].config)
      && |table| == |result.results|
      && RowsStored(table, result.results)
  {
    hide InsertResults, ResultsOf;
    var config := s.engine.origin[s.db.jobs[p.scan].scannerId.value].config;
    CompleteOutputContents(result.results, config);
    InsertResultsKeys(result.results);
    InsertResultsStates(result.results);
    var table := InsertResults(map[], result.results);
    assert |table| == |table.Keys|;
    forall e ensures e in table <==> InScope(e, config) {
      assert e in table <==> e in Endpoints(result.results);
    }
  }

  ghost predicate CompletedWritten(s: System, t: System, p: Proc, result: ScanResult, at: Time) {
    && p.scan in s.db.jobs
    && RowWritten(s, t, p.scan, Some(CompletedEvent(p.scan, p.owner, s.db.jobs[p.scan], result)))
    && t.db.jobs[p.scan] == CompletedJob(s.db.jobs[p.scan], result, at)
    && ResultsOf(t.db, p.scan) == InsertResults(ResultsOf(s.db, p.scan), result.results)
  }

  lemma CompletedHistoryOk(env: Env, s: System, t: System, p: Proc, result: ScanResult, at: Time)
    requires JobsOk(s) && ServingOk(env, s, p) && CompletedWritten(s, t, p, result, at)
    requires s.db.jobs[p.scan].status == RUNNING && Delivers(s, p, result)
    ensures HistoryOk(t, p.scan) && StoredOk(t, p.scan)
  {
    hide HistoryOk, EventsOf, PcOk, FullResults, ResultsOf, InsertResults, CompleteOutput;
    assert JobOk(s, p.scan);
    ResultsArriveInFull(s, p, result);
    WrittenHistory(s, t, p.scan, CompletedEvent(p.scan, p.owner, s.db.jobs[p.scan], result));
  }

  lemma CompletedRowOk(env: Env, s: System, t: System, p: Proc, result: ScanResult, at: Time)
    requires JobsOk(s) && ServingOk(env, s, p) && AtWrite(p.pc) && p.since <= at <= s.clock
    requires CompletedWritten(s, t, p, result, at) && s.db.jobs[p.scan].status == RUNNING && Delivers(s, p, result)
    ensures JobOk(t, p.scan)
  {
    hide HistoryOk, StoredOk, ResultsOf, EventsOf, PcOk, InsertResults, CompleteOutput;
    assert JobOk(s, p.scan);
    KnownRow(env, s, p);
    CompletedHistoryOk(env, s, t, p, result, at);
  }

  lemma SettledCompletion(s: System, pid: Id, result: ScanResult, at: Time, next: Pc)
    requires pid in s.procs && s.procs[pid].scan in s.db.jobs && !s.refused
    ensures var p := s.procs[pid];
      var j := s.db.jobs[p.scan];
      var e := CompletedEvent(p.scan, p.owner, j, result);
      var t := Settle(s, pid, Applied(CompletedDb(s.db, p.scan, CompletedJob(j, result, at), e, result)), next, next);
      && CompletedWritten(s, t, p, result, at)
      && t.claims == s.claims && t.sent == s.sent && t.replies == s.replies && t.creators == s.creators
      && t.dials == s.dials && t.attachments == s.attachments && t.tokens == s.tokens
      && pid in t.procs && t.procs[pid] == p.(pc := next, since := s.clock)
      && (!Admitting(p.pc) && !Admitting(next) ==> Bystander(s, t, pid))
  {
    hide InsertResults;
  }

  lemma CompletePreserves(env: Env, s: System, pid: Id, result: ScanResult, at: Time, next: Pc)
    requires pid in s.procs && AtWrite(s.procs[pid].pc) && s.procs[pid].since <= at <= s.clock
    requires next.PollRefresh? && Inv(env, s)
    requires s.procs[pid].scan in s.db.jobs && Delivers(s, s.procs[pid], result)
    ensures Keeps(env, s, Settle(s, pid,
              SynchronizeCompleted(s.db, s.procs[pid].scan, s.procs[pid].owner, result, at), next, next))
  {
    hide Evolves, PcOkHere, ServingOk, LinksOk, JobOk, Go.EngineOk, ProcsOk, LocksOk, RoomOk, ResponsesOk, ClaimsOk,
      StrayOk, ScansDistinct, Bystander, JobsOk, RowWritten, Move, CompletedJob, CompletedDb, Settle, JobEvolves,
      CompleteOutput, InsertResults, CompletedEvent;
    PcOf(env, s, pid);
    var p := s.procs[pid];
    ServingScan(env, s, p);
    PlainPcOk(env, s, p, next);
    var j := s.db.jobs[p.scan];
    if IsActive(j) {
      CompletedApplies(env, s, p, result, at);
      SettledCompletion(s, pid, result, at, next);
      var t := Settle(s, pid, SynchronizeCompleted(s.db, p.scan, p.owner, result, at), next, next);
      CompletedRowOk(env, s, t, p, result, at);
      WriteFinish(env, s, t, pid, p.scan, Some(CompletedEvent(p.scan, p.owner, j, result)), next);
    } else {
      UnchangedSettles(env, s, pid, next, next);
    }
  }

  // ------------------------------------------------------------------------ the step

  lemma MismatchNever(env: Env, s: System, pid: Id)
    requires pid in s.procs && Inv(env, s)
    ensures s.procs[pid].pc != PollMismatch
  {
    hide Inv;
    if s.procs[pid].pc == PollMismatch {
      PcOf(env, s, pid);
    }
  }

  lemma SynchronizePreserves(env: Env, s: System, pid: Id, at: Time)
    requires CanProceed(env, s, pid, Synchronize(at)) && Inv(env, s)
    ensures Keeps(env, s, ProceedStep(env, s, pid, Synchronize(at)))
  {
    hide Inv, Keeps, Settle, PcOkHere, ServingOk, JobsOk, LinksOk, Go.EngineOk, Delivers;
    MismatchNever(env, s, pid);
    PcOf(env, s, pid);
    var p := s.procs[pid];
    ServingScan(env, s, p);
    match p.pc
    case PollSynchronize(scannerId, answer) => {
      match answer.status
      case Failed => FailWritePreserves(env, s, pid, ScannerFailed, at, PollRefresh(false));
      case Completed => {
        LinksOf(env, s);
        AnswerDelivers(env, s, p, scannerId, answer);
        CompletePreserves(env, s, pid, answer.result.value, at, PollRefresh(false));
      }
      case _ => {
        PlainPcOk(env, s, p, PollRefresh(false));
        UnchangedSettles(env, s, pid, PollRefresh(false), PollRefresh(false));
      }
    }
    case PollFail(code) => FailWritePreserves(env, s, pid, code, at, PollRefresh(true));
    case _ => assert false;
  }
}
