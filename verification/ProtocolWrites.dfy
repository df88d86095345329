// The steps that write a job row. Each is shown to pass every constraint, so
// that no write is ever refused, and to leave the invariant standing.
module ProtocolWrites {
  import opened Collections
  import opened ScanTasks
  import opened ScanRecords
  import opened DispatchProtocol
  import opened ProtocolInvariant
  import opened ProtocolSteps
  import opened ProtocolQuiet
  import Go = GoEngine

  // ------------------------------------------------------------ one row, one event

  function WriteRow(db: Database, id: Id, j: Job, event: Option<AuditEvent>): Database {
    db.(jobs := db.jobs[id := j], audit := if event.Some? then db.audit + [event.value] else db.audit)
  }

  // The event has not happened yet in this job's life.
  ghost predicate Fresh(j: Job, id: Id, event: Option<AuditEvent>) {
    event.Some? ==> event.value.job == id && EventShape(event.value) && event.value.action !in LifeWord(j)
  }

  lemma EventIsAllowed(s: System, id: Id, e: AuditEvent)
    requires id in s.db.jobs && HistoryOk(s, id) && Fresh(s.db.jobs[id], id, Some(e))
    ensures EventAllowed(s.db.audit, e)
  {
    hide EventShape, EventAllowed, EventsOf;
    var events := EventsOf(s.db.audit, id);
    forall i | 0 <= i < |events| ensures events[i].action != e.action {
      assert Actions(events)[i] == events[i].action;
      assert Actions(events)[i] in LifeWord(s.db.jobs[id]);
    }
    AbsentActionIsFree(s.db.audit, e);
  }

  // A scanner job is recorded on the row it was created for and no other.
  lemma ScannerIdIsUnique(s: System, id: Id, j: Job)
    requires JobsOk(s)
    requires j.scannerId.Some? ==>
               j.scannerId.value in s.engine.origin && s.engine.origin[j.scannerId.value].key == Some(id)
    ensures ScannerIdUnique(s.db.jobs, id, j)
  {
    hide RowOk, HistoryOk, StoredOk;
    forall other | other in s.db.jobs && other != id && j.scannerId.Some?
      ensures s.db.jobs[other].scannerId != j.scannerId
    {
      assert JobOk(s, other);
    }
  }

  lemma PutApplies(s: System, id: Id, j: Job, event: Option<AuditEvent>)
    requires JobsOk(s) && id in s.db.jobs && RowChecks(j) && Fresh(s.db.jobs[id], id, event)
    requires j.scannerId.Some? ==>
               j.scannerId.value in s.engine.origin && s.engine.origin[j.scannerId.value].key == Some(id)
    requires j.allowedTarget.Some? ==> j.allowedTarget.value in s.db.rules
    ensures Put(s.db, id, j, event) == Applied(WriteRow(s.db, id, j, event))
  {
    hide RowOk, LinkOk, HistoryOk, StoredOk, RowChecks, EventAllowed, ScannerIdUnique;
    assert JobOk(s, id);
    ScannerIdIsUnique(s, id, j);
    if event.Some? {
      EventIsAllowed(s, id, event.value);
    }
  }

  // --------------------------------------------------------------- a written row

  ghost predicate RowWritten(s: System, t: System, id: Id, event: Option<AuditEvent>) {
    && id in s.db.jobs && id in t.db.jobs
    && t.db.jobs == s.db.jobs[id := t.db.jobs[id]]
    && t.db.audit == (if event.Some? then s.db.audit + [event.value] else s.db.audit)
    && (event.Some? ==> event.value.job == id)
    && t.db.rules == s.db.rules
    && (forall k :: k != id ==> ResultsOf(t.db, k) == ResultsOf(s.db, k) && (k in t.db.results <==> k in s.db.results))
    && t.clock == s.clock && t.scans == s.scans && t.responses == s.responses && t.engine == s.engine
    && s.attachments <= t.attachments
    && (forall k :: k in s.tokens ==> k in t.tokens && t.tokens[k] == s.tokens[k])
    && (forall k :: k in s.claims ==> k in t.claims && s.claims[k] <= t.claims[k])
    && (forall k :: k in s.claims && k != id ==> t.claims[k] == s.claims[k])
    && !t.refused
  }

  lemma WrittenEvolves(s: System, t: System, id: Id, event: Option<AuditEvent>)
    requires RowWritten(s, t, id, event) && JobEvolves(s.db.jobs[id], t.db.jobs[id]) && IsActive(s.db.jobs[id])
    ensures Evolves(s, t) && NoNewActive(s, t)
  {
    hide EventsOf;
  }

  lemma WrittenLeavesOthers(s: System, t: System, id: Id, event: Option<AuditEvent>)
    requires RowWritten(s, t, id, event)
    ensures forall other :: other in t.db.jobs && other != id ==> SameJob(s, t, other)
    ensures StrayOk(s) ==> StrayOk(t)
    ensures t.db.jobs.Keys == s.db.jobs.Keys
    ensures EventsOf(t.db.audit, id) ==
      if event.Some? then EventsOf(s.db.audit, id) + [event.value] else EventsOf(s.db.audit, id)
  {
    hide EventsOf;
    forall k ensures k != id ==> EventsOf(t.db.audit, k) == EventsOf(s.db.audit, k) {
      if event.Some? {
        EventsOfAppend(s.db.audit, event.value, k);
      }
    }
    if event.Some? {
      EventsOfAppend(s.db.audit, event.value, id);
    }
  }

  lemma RowWritePreserves(env: Env, s: System, t: System, pid: Id, id: Id, event: Option<AuditEvent>)
    requires Inv(env, s) && RowWritten(s, t, id, event) && Bystander(s, t, pid)
    requires JobEvolves(s.db.jobs[id], t.db.jobs[id]) && IsActive(s.db.jobs[id])
    requires JobOk(t, id) && LinksOk(env, t) && ClaimsOk(t)
    requires pid in t.procs ==> ServingOk(env, t, t.procs[pid])
    ensures Keeps(env, s, t)
  {
    hide JobOk, JobsOk, SameJob, Evolves, LinksOk, LocksOk, RoomOk, ResponsesOk, ScansDistinct, ProcsOk, Bystander,
      StrayOk, ClaimsOk, NoNewActive, ServingOk, Go.EngineOk, JobEvolves;
    WrittenEvolves(s, t, id, event);
    WrittenLeavesOthers(s, t, id, event);
    ResponsesFrame(s, t);
    BystanderPreserves(env, s, t, pid, id);
  }

  // The audit keeps telling the row's story when one event is added to both.
  lemma FitExtends(events: seq<AuditEvent>, a: Job, b: Job, e: AuditEvent, m: int, n: int)
    requires EventsFit(events, a, m) && LifeWord(b) == LifeWord(a) + [e.action]
    requires b.owner == a.owner == e.owner && b.request == a.request
    requires b.failure.Some? ==> e.metadata == Code(b.failure.value)
    requires b.status == COMPLETED && b.duration.Some? ==> e.metadata == Counts(n, b.duration.value)
    ensures EventsFit(events + [e], b, n)
  {
    assert Actions(events + [e]) == Actions(events) + [e.action];
  }

  // A settled write as a written row.
  lemma SettledWrite(s: System, pid: Id, id: Id, j: Job, event: Option<AuditEvent>, applied: Pc, skipped: Pc)
    requires pid in s.procs && id in s.db.jobs && !s.refused
    requires event.Some? ==> event.value.job == id
    ensures var t := Settle(s, pid, Applied(WriteRow(s.db, id, j, event)), applied, skipped);
      && RowWritten(s, t, id, event) && t.db.jobs[id] == j
      && ResultsOf(t.db, id) == ResultsOf(s.db, id)
      && t.claims == s.claims && t.sent == s.sent && t.replies == s.replies && t.creators == s.creators
      && t.dials == s.dials && t.attachments == s.attachments && t.tokens == s.tokens
      && pid in t.procs && t.procs[pid] == s.procs[pid].(pc := applied, since := s.clock)
      && (!Admitting(s.procs[pid].pc) && !Admitting(applied) ==> Bystander(s, t, pid))
  {}

  // ------------------------------------------------------ recording the scanner's id

  function StartedJob(j: Job, scannerId: Id, at: Time): Job {
    j.(scannerId := Some(scannerId), status := RUNNING, startedAt := Some(at),
       leaseToken := None, leaseExpires := None, updatedAt := at)
  }

  function StartedEvent(id: Id, owner: Subject, j: Job): AuditEvent {
    ServiceEvent(id, owner, ScanStarted, Success, Empty, j.allowedTarget)
  }

  lemma StartedApplies(env: Env, s: System, p: Proc, token: Id, scannerId: Id, at: Time)
    requires JobsOk(s) && ServingOk(env, s, p) && p.pc == DispatchMark(token, scannerId)
    requires p.since <= at <= s.clock && HoldsLease(s.db, p.scan, token)
    ensures var j := s.db.jobs[p.scan];
      && MarkDispatched(s.db, p.scan, p.owner, scannerId, token, at)
           == Applied(WriteRow(s.db, p.scan, StartedJob(j, scannerId, at), Some(StartedEvent(p.scan, p.owner, j))))
      && JobEvolves(j, StartedJob(j, scannerId, at))
  {
    hide HistoryOk, StoredOk;
    assert JobOk(s, p.scan);
    var j := s.db.jobs[p.scan];
    PutApplies(s, p.scan, StartedJob(j, scannerId, at), Some(StartedEvent(p.scan, p.owner, j)));
  }

  // The audit of a written row.
  lemma WrittenHistory(s: System, t: System, id: Id, e: AuditEvent)
    requires RowWritten(s, t, id, Some(e)) && HistoryOk(s, id)
    requires var a, b := s.db.jobs[id], t.db.jobs[id];
      && LifeWord(b) == LifeWord(a) + [e.action]
      && b.owner == a.owner == e.owner && b.request == a.request
      && (b.failure.Some? ==> e.metadata == Code(b.failure.value))
      && (b.status == COMPLETED && b.duration.Some? ==> e.metadata == Counts(|ResultsOf(t.db, id)|, b.duration.value))
    ensures HistoryOk(t, id)
  {
    hide EventsOf, EventsFit;
    WrittenLeavesOthers(s, t, id, Some(e));
    FitExtends(EventsOf(s.db.audit, id), s.db.jobs[id], t.db.jobs[id], e, |ResultsOf(s.db, id)|, |ResultsOf(t.db, id)|);
  }

  // A write without an event leaves the story as it was.
  lemma UneventfulHistory(s: System, t: System, id: Id)
    requires RowWritten(s, t, id, None) && HistoryOk(s, id) && ResultsOf(t.db, id) == ResultsOf(s.db, id)
    requires var a, b := s.db.jobs[id], t.db.jobs[id];
      && b.status == a.status && b.startedAt == a.startedAt && b.owner == a.owner && b.request == a.request
      && b.failure == a.failure && b.duration == a.duration
    ensures HistoryOk(t, id)
  {
    hide EventsOf, ResultsOf;
  }

  lemma StillNothingStored(s: System, t: System, id: Id)
    requires id in s.db.jobs && id in t.db.jobs && StoredOk(s, id) && ResultsOf(t.db, id) == ResultsOf(s.db, id)
    requires s.db.jobs[id].status != COMPLETED && t.db.jobs[id].status != COMPLETED
    ensures StoredOk(t, id)
  {
    hide FullResults, ResultsOf;
  }

  lemma StartedRowOk(env: Env, s: System, t: System, p: Proc, token: Id, scannerId: Id, at: Time)
    requires JobsOk(s) && ServingOk(env, s, p) && p.pc == DispatchMark(token, scannerId)
    requires p.since <= at <= s.clock && HoldsLease(s.db, p.scan, token)
    requires RowWritten(s, t, p.scan, Some(StartedEvent(p.scan, p.owner, s.db.jobs[p.scan])))
    requires t.db.jobs[p.scan] == StartedJob(s.db.jobs[p.scan], scannerId, at)
    requires ResultsOf(t.db, p.scan) == ResultsOf(s.db, p.scan)
    ensures JobOk(t, p.scan)
  {
    hide HistoryOk, StoredOk, ResultsOf, EventsOf;
    assert JobOk(s, p.scan);
    WrittenHistory(s, t, p.scan, StartedEvent(p.scan, p.owner, s.db.jobs[p.scan]));
    StillNothingStored(s, t, p.scan);
  }

  lemma RecordDispatchPreserves(env: Env, s: System, pid: Id, at: Time)
    requires CanProceed(env, s, pid, RecordDispatch(at)) && Inv(env, s)
    ensures Keeps(env, s, ProceedStep(env, s, pid, RecordDispatch(at)))
  {
    hide Evolves, PcOkHere, ServingOk, LinksOk, JobOk, Go.EngineOk, ProcsOk, LocksOk, RoomOk, ResponsesOk,
      ClaimsOk, StrayOk, ScansDistinct, Bystander, JobsOk, RowWritten, Move, StartedJob, Settle, JobEvolves;
    PcOf(env, s, pid);
    var p := s.procs[pid];
    ServingScan(env, s, p);
    PlainPcOk(env, s, p, DispatchReturned);
    var scannerId, token := p.pc.scannerId, p.pc.token;
    if HoldsLease(s.db, p.scan, token) {
      StartedApplies(env, s, p, token, scannerId, at);
      var j := s.db.jobs[p.scan];
      var e := StartedEvent(p.scan, p.owner, j);
      SettledWrite(s, pid, p.scan, StartedJob(j, scannerId, at), Some(e), DispatchReturned, DispatchReturned);
      var t := ProceedStep(env, s, pid, RecordDispatch(at));
      StartedRowOk(env, s, t, p, token, scannerId, at);
      WriteFinish(env, s, t, pid, p.scan, Some(e), DispatchReturned);
    } else {
      UnchangedSettles(env, s, pid, DispatchReturned, DispatchReturned);
    }
  }

  lemma UnchangedSettles(env: Env, s: System, pid: Id, applied: Pc, skipped: Pc)
    requires Inv(env, s) && pid in s.procs && !Admitting(s.procs[pid].pc) && !Admitting(skipped)
    requires PcOkHere(env, s, s.procs[pid].(pc := skipped, since := s.clock))
    ensures Keeps(env, s, Settle(s, pid, Unchanged, applied, skipped))
  {
    hide Inv, PcOkHere, Evolves, Move;
    MovePreserves(env, s, pid, skipped);
  }

  // The common end of the row writes that record nothing else.
  lemma WriteFinish(env: Env, s: System, t: System, pid: Id, id: Id, event: Option<AuditEvent>, pc: Pc)
    requires Inv(env, s) && RowWritten(s, t, id, event) && Bystander(s, t, pid)
    requires JobEvolves(s.db.jobs[id], t.db.jobs[id]) && IsActive(s.db.jobs[id]) && JobOk(t, id)
    requires t.claims == s.claims && t.sent == s.sent && t.replies == s.replies && t.creators == s.creators
    requires t.dials == s.dials && t.attachments == s.attachments && t.tokens == s.tokens
    requires pid in s.procs && pid in t.procs && t.procs[pid] == s.procs[pid].(pc := pc, since := s.clock)
    requires pc == DispatchReturned || pc == Ended || pc.PollRefresh?
    ensures Keeps(env, s, t)
  {
    hide JobOk, JobsOk, Evolves, LinksOk, LocksOk, RoomOk, ResponsesOk, ScansDistinct, ProcsOk, Bystander,
      StrayOk, ServingOk, Go.EngineOk, JobEvolves, NoNewActive, PcOk;
    WrittenEvolves(s, t, id, event);
    LinksFrame(env, s, t);
    PcOfBystander(env, s, t, pid);
    ServingStaysOk(env, s, t, s.procs[pid]);
    NewPcServes(env, t, s.procs[pid], pc);
    RowWritePreserves(env, s, t, pid, id, event);
  }

  lemma PcOfBystander(env: Env, s: System, t: System, pid: Id)
    requires Inv(env, s) && Bystander(s, t, pid) && pid in s.procs
    ensures ServingOk(env, s, s.procs[pid])
  {
    hide Inv, ServingOk;
    PcOf(env, s, pid);
  }

  lemma NewPcServes(env: Env, t: System, p: Proc, pc: Pc)
    requires ServingOk(env, t, p) && (pc == DispatchReturned || pc == Ended || pc.PollRefresh?)
    ensures ServingOk(env, t, p.(pc := pc, since := t.clock))
  {}

  // --------------------------------------------------------- recording a failed dispatch

  function StoppedJob(j: Job, code: FailureCode, blocked: bool, at: Time): Job {
    j.(status := if blocked then BLOCKED else FAILED, failure := Some(code),
       leaseToken := None, leaseExpires := None, finishedAt := Some(at), updatedAt := at)
  }

  function StoppedEvent(id: Id, owner: Subject, j: Job, code: FailureCode, blocked: bool): AuditEvent {
    ServiceEvent(id, owner, if blocked then ScanBlocked else ScanFailed, if blocked then Denied else Failure,
                 Code(code), j.allowedTarget)
  }

  lemma StoppedApplies(env: Env, s: System, p: Proc, token: Id, code: FailureCode, blocked: bool, at: Time)
    requires JobsOk(s) && ServingOk(env, s, p) && p.pc == DispatchFail(token, code, blocked)
    requires p.since <= at <= s.clock && HoldsLease(s.db, p.scan, token)
    ensures var j := s.db.jobs[p.scan];
      && MarkDispatchFailed(s.db, p.scan, p.owner, code, blocked, token, at)
           == Applied(WriteRow(s.db, p.scan, StoppedJob(j, code, blocked, at),
                               Some(StoppedEvent(p.scan, p.owner, j, code, blocked))))
      && JobEvolves(j, StoppedJob(j, code, blocked, at))
  {
    hide HistoryOk, StoredOk;
    assert JobOk(s, p.scan);
    var j := s.db.jobs[p.scan];
    PutApplies(s, p.scan, StoppedJob(j, code, blocked, at), Some(StoppedEvent(p.scan, p.owner, j, code, blocked)));
  }

  lemma StoppedRowOk(env: Env, s: System, t: System, p: Proc, token: Id, code: FailureCode, blocked: bool, at: Time)
    requires JobsOk(s) && ServingOk(env, s, p) && p.pc == DispatchFail(token, code, blocked)
    requires p.since <= at <= s.clock && HoldsLease(s.db, p.scan, token)
    requires RowWritten(s, t, p.scan, Some(StoppedEvent(p.scan, p.owner, s.db.jobs[p.scan], code, blocked)))
    requires t.db.jobs[p.scan] == StoppedJob(s.db.jobs[p.scan], code, blocked, at)
    requires ResultsOf(t.db, p.scan) == ResultsOf(s.db, p.scan)
    ensures JobOk(t, p.scan)
  {
    hide HistoryOk, StoredOk, ResultsOf, EventsOf;
    assert JobOk(s, p.scan);
    WrittenHistory(s, t, p.scan, StoppedEvent(p.scan, p.owner, s.db.jobs[p.scan], code, blocked));
    StillNothingStored(s, t, p.scan);
  }

  lemma StoppedEventJob(id: Id, owner: Subject, j: Job, code: FailureCode, blocked: bool)
    ensures StoppedEvent(id, owner, j, code, blocked).job == id
  {}

  lemma RecordFailurePreserves(env: Env, s: System, pid: Id, at: Time)
    requires CanProceed(env, s, pid, RecordFailure(at)) && Inv(env, s)
    ensures Keeps(env, s, ProceedStep(env, s, pid, RecordFailure(at)))
  {
    hide Evolves, PcOkHere, ServingOk, LinksOk, JobOk, Go.EngineOk, ProcsOk, LocksOk, RoomOk, ResponsesOk,
      ClaimsOk, StrayOk, ScansDistinct, Bystander, JobsOk, RowWritten, Move, StoppedJob, StoppedEvent, Settle,
      JobEvolves;
    PcOf(env, s, pid);
    var p := s.procs[pid];
    ServingScan(env, s, p);
    PlainPcOk(env, s, p, DispatchReturned);
    var token, code, blocked := p.pc.token, p.pc.code, p.pc.blocked;
    if HoldsLease(s.db, p.scan, token) {
      StoppedApplies(env, s, p, token, code, blocked, at);
      var j := s.db.jobs[p.scan];
      var e := StoppedEvent(p.scan, p.owner, j, code, blocked);
      StoppedEventJob(p.scan, p.owner, j, code, blocked);
      SettledWrite(s, pid, p.scan, StoppedJob(j, code, blocked, at), Some(e), DispatchReturned, DispatchReturned);
      var t := Settle(s, pid, MarkDispatchFailed(s.db, p.scan, p.owner, code, blocked, token, at),
                      DispatchReturned, DispatchReturned);
      StoppedRowOk(env, s, t, p, token, code, blocked, at);
      WriteFinish(env, s, t, pid, p.scan, Some(e), DispatchReturned);
    } else {
      UnchangedSettles(env, s, pid, DispatchReturned, DispatchReturned);
    }
  }
}
