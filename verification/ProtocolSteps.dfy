// Every step of the dispatch protocol keeps the invariant and undoes nothing.
module ProtocolSteps {
  import opened Collections
  import opened ScanTasks
  import opened ScanRecords
  import opened DispatchProtocol
  import opened ProtocolInvariant
  import Go = GoEngine

  // --------------------------------------------------------- steps of a bystander

  // The shape shared by all steps of a request that is past admission and
  // touches at most one row.
  lemma BystanderPreserves(env: Env, s: System, t: System, pid: Id, touched: Id)
    requires Inv(env, s) && Evolves(s, t) && Bystander(s, t, pid) && NoNewActive(s, t)
    requires t.db.jobs.Keys == s.db.jobs.Keys && StrayOk(t)
    requires forall id :: id in t.db.jobs && id != touched ==> SameJob(s, t, id)
    requires touched in t.db.jobs ==> JobOk(t, touched)
    requires pid in t.procs ==> ServingOk(env, t, t.procs[pid])
    requires LinksOk(env, t) && ClaimsOk(t) && ResponsesOk(t) && Go.EngineOk(t.engine) && !t.refused
    ensures Inv(env, t)
  {
    hide JobOk, SameJob, ServingOk, NoNewActive, Evolves, LinksOk, LocksOk, RoomOk, ResponsesOk, ClaimsOk, StrayOk,
      ScansDistinct, JobsOk;
    JobsFrame(s, t, touched);
    OthersStillWaiting(env, s, t, pid);
    ProcsFrame(env, s, t, pid);
    LocksFrame(env, s, t, pid);
    RoomFrame(env, s, t, pid);
  }

  lemma OthersStillWaiting(env: Env, s: System, t: System, pid: Id)
    requires ProcsOk(env, s) && Bystander(s, t, pid) && t.db.jobs.Keys == s.db.jobs.Keys
    ensures forall q :: q in t.procs && q != pid && Admitting(t.procs[q].pc) ==> t.procs[q].scan !in t.db.jobs
  {
    forall q | q in t.procs && q != pid && Admitting(t.procs[q].pc) ensures t.procs[q].scan !in t.db.jobs {
      assert ProcOk(env, s, s.procs[q]);
    }
  }

  // The database and what has been recorded about it stand still.
  ghost predicate RowsStill(s: System, t: System) {
    && t.db == s.db && t.clock == s.clock && s.scans <= t.scans
    && t.tokens == s.tokens && t.claims == s.claims && t.attachments == s.attachments
    && s.responses <= t.responses
    && t.engine.origin == s.engine.origin
  }

  lemma RowsStillEvolves(s: System, t: System)
    requires RowsStill(s, t)
    ensures Evolves(s, t) && NoNewActive(s, t)
  {}

  lemma RowsStillKeeps(s: System, t: System)
    requires RowsStill(s, t)
    ensures StrayOk(s) ==> StrayOk(t)
    ensures ClaimsOk(s) ==> ClaimsOk(t)
    ensures forall id :: id in s.db.jobs ==> SameJob(s, t, id)
  {
    hide EventsOf;
  }

  lemma RowsStillJobsOk(s: System, t: System)
    requires RowsStill(s, t) && JobsOk(s)
    ensures forall id :: id in t.db.jobs ==> JobOk(t, id)
  {
    hide JobOk, SameJob, Evolves;
    RowsStillEvolves(s, t);
    RowsStillKeeps(s, t);
    forall id | id in t.db.jobs ensures JobOk(t, id) {
      SameJobStaysOk(s, t, id);
    }
  }

  ghost predicate OnlyProcs(s: System, t: System) {
    t == s.(procs := t.procs)
  }

  // Only the request itself changes.
  lemma QuietPreserves(env: Env, s: System, t: System, pid: Id)
    requires Inv(env, s) && OnlyProcs(s, t) && Bystander(s, t, pid)
    requires pid in t.procs ==> ServingOk(env, t, t.procs[pid])
    ensures Inv(env, t) && Evolves(s, t)
  {
    hide JobOk, SameJob, Evolves, LinksOk, LocksOk, RoomOk, ResponsesOk, ScansDistinct, ProcsOk, Bystander,
      StrayOk, ClaimsOk, NoNewActive, ServingOk, RowsStill, Go.EngineOk, JobsOk;
    OnlyProcsStill(s, t);
    RowsStillEvolves(s, t);
    RowsStillKeeps(s, t);
    RowsStillJobsOk(s, t);
    ResponsesFrame(s, t);
    LinksFrame(env, s, t);
    BystanderPreserves(env, s, t, pid, pid);
  }

  lemma OnlyProcsStill(s: System, t: System)
    requires OnlyProcs(s, t)
    ensures RowsStill(s, t)
  {}

  lemma MovedServing(env: Env, s: System, pid: Id, pc: Pc)
    requires pid in s.procs && ServingOk(env, s, s.procs[pid])
    requires PcOkHere(env, s, s.procs[pid].(pc := pc, since := s.clock))
    ensures ServingOk(env, Move(s, pid, pc), Move(s, pid, pc).procs[pid])
  {
    hide PcOk;
    var t := Move(s, pid, pc);
    SamePcOk(env, s, t, t.procs[pid]);
  }

  lemma RowIsOk(env: Env, s: System, id: Id)
    requires Inv(env, s) && id in s.db.jobs
    ensures JobOk(s, id) && RowOk(s, id)
  {
    hide ProcsOk, LocksOk, RoomOk, LinksOk, ResponsesOk, ClaimsOk, StrayOk, ScansDistinct, RowOk;
  }

  lemma ServingProc(env: Env, s: System, pid: Id)
    requires Inv(env, s) && pid in s.procs && !Admitting(s.procs[pid].pc)
    ensures ServingOk(env, s, s.procs[pid])
    ensures s.procs[pid].scan in s.db.jobs && JobOk(s, s.procs[pid].scan)
  {
    hide JobOk, PcOk;
    assert ProcOk(env, s, s.procs[pid]);
  }

  lemma MovePreserves(env: Env, s: System, pid: Id, pc: Pc)
    requires Inv(env, s) && pid in s.procs && !Admitting(s.procs[pid].pc) && !Admitting(pc)
    requires PcOkHere(env, s, s.procs[pid].(pc := pc, since := s.clock))
    ensures Inv(env, Move(s, pid, pc)) && Evolves(s, Move(s, pid, pc))
  {
    hide Inv, ServingOk, PcOkHere, Evolves;
    ServingProc(env, s, pid);
    MovedServing(env, s, pid, pc);
    QuietPreserves(env, s, Move(s, pid, pc), pid);
  }

  ghost predicate PcOkHere(env: Env, s: System, p: Proc) {
    p.scan in s.db.jobs && PcOk(env, s, p)
  }

  lemma SamePcOk(env: Env, s: System, t: System, p: Proc)
    requires p.scan in s.db.jobs && PcOk(env, s, p) && t == s.(procs := t.procs)
    ensures p.scan in t.db.jobs && PcOk(env, t, p)
  {}

  // ------------------------------------------------------------ loading, answering

  lemma CurrentRowSeen(env: Env, s: System, p: Proc)
    requires Inv(env, s) && p.scan in s.db.jobs && p.begun <= |s.responses|
    ensures Seen(s, p, s.db.jobs[p.scan])
  {
    hide JobsOk, ProcsOk, LinksOk, LocksOk, RoomOk, ClaimsOk, StrayOk, ScansDistinct;
    forall i | 0 <= i < p.begun && i < |s.responses| && s.responses[i].scan == p.scan
      ensures JobEvolves(s.responses[i].job, s.db.jobs[p.scan])
    {
      assert ResponseOk(s, i);
    }
  }

  lemma RespondedOk(s: System, t: System, p: Proc, job: Job, results: map<Endpoint, PortState>, failed: bool)
    requires ResponsesOk(s) && t.db == s.db
    requires t.responses == s.responses + [Response(p.scan, job, results, failed, p.begun)]
    requires p.scan in s.db.jobs && p.begun <= |s.responses| && Seen(s, p, job)
    requires results == if job.status == COMPLETED && !failed then ResultsOf(s.db, p.scan) else map[]
    ensures ResponsesOk(t)
  {
    forall i | 0 <= i < |t.responses| ensures ResponseOk(t, i) {
      if i < |s.responses| {
        assert ResponseOk(s, i);
      }
    }
  }

  lemma RespondPreserves(env: Env, s: System, pid: Id, job: Job, results: map<Endpoint, PortState>, failed: bool)
    requires Inv(env, s) && pid in s.procs && !Admitting(s.procs[pid].pc)
    requires s.procs[pid].scan in s.db.jobs && Seen(s, s.procs[pid], job)
    requires results == if job.status == COMPLETED && !failed then ResultsOf(s.db, s.procs[pid].scan) else map[]
    ensures Inv(env, Respond(s, pid, job, results, failed)) && Evolves(s, Respond(s, pid, job, results, failed))
  {
    hide JobOk, SameJob, Evolves, LinksOk, LocksOk, RoomOk, ScansDistinct, ProcsOk,
      StrayOk, ClaimsOk, NoNewActive, ServingOk, Seen, ResponsesOk, Bystander, JobsOk, Go.EngineOk;
    var p, t := s.procs[pid], Respond(s, pid, job, results, failed);
    ServingProc(env, s, pid);
    BegunBound(env, s, p);
    RespondedOk(s, t, p, job, results, failed);
    RowsStillEvolves(s, t);
    RowsStillKeeps(s, t);
    RowsStillJobsOk(s, t);
    DroppedBystander(s, t, pid);
    LinksFrame(env, s, t);
    BystanderPreserves(env, s, t, pid, pid);
  }

  lemma DroppedBystander(s: System, t: System, pid: Id)
    requires t.locks == s.locks && t.procs == s.procs - {pid}
    requires pid in s.procs ==> !Admitting(s.procs[pid].pc)
    ensures Bystander(s, t, pid)
  {}

  lemma BegunBound(env: Env, s: System, p: Proc)
    requires ServingOk(env, s, p)
    ensures p.begun <= |s.responses|
  {
    hide PcOk;
  }

  lemma AnswerPreserves(env: Env, s: System, pid: Id, job: Job)
    requires Inv(env, s) && pid in s.procs && !Admitting(s.procs[pid].pc)
    requires s.procs[pid].scan in s.db.jobs && Seen(s, s.procs[pid], job)
    ensures Inv(env, Answer(s, pid, job)) && Evolves(s, Answer(s, pid, job))
  {
    hide Inv, Evolves;
    if job.status == COMPLETED {
      MovePreserves(env, s, pid, PollResults(job));
    } else {
      RespondPreserves(env, s, pid, job, map[], false);
    }
  }

  // A row that names its scanner job was started no later than now.
  lemma KnownNow(env: Env, s: System, p: Proc, pc: Pc)
    requires Inv(env, s) && p.scan in s.db.jobs && s.db.jobs[p.scan].scannerId.Some?
    ensures ScannerKnown(s, p.(pc := pc, since := s.clock))
  {
    hide HistoryOk, StoredOk, LinkOk, RowChecks, ProcsOk, LinksOk, ResponsesOk;
    assert JobOk(s, p.scan);
  }

  lemma FetchPcOk(env: Env, s: System, p: Proc)
    requires Inv(env, s) && p.scan in s.db.jobs && s.db.jobs[p.scan].scannerId.Some? && p.begun <= |s.responses|
    ensures var job := s.db.jobs[p.scan];
      PcOkHere(env, s, p.(pc := PollFetch(job.scannerId.value, job), since := s.clock))
  {
    hide Inv, Seen, ScannerKnown;
    var job := s.db.jobs[p.scan];
    var pc := PollFetch(job.scannerId.value, job);
    CurrentRowSeen(env, s, p.(pc := pc, since := s.clock));
    KnownNow(env, s, p, pc);
  }

  lemma FetchMovePreserves(env: Env, s: System, pid: Id, job: Job)
    requires Inv(env, s) && pid in s.procs && !Admitting(s.procs[pid].pc)
    requires s.procs[pid].scan in s.db.jobs && job == s.db.jobs[s.procs[pid].scan] && job.scannerId.Some?
    requires s.procs[pid].begun <= |s.responses|
    ensures var t := Move(s, pid, PollFetch(job.scannerId.value, job)); Inv(env, t) && Evolves(s, t)
  {
    hide Inv, Evolves, PcOkHere;
    FetchPcOk(env, s, s.procs[pid]);
    MovePreserves(env, s, pid, PollFetch(job.scannerId.value, job));
  }

  lemma ClaimPcOk(env: Env, s: System, p: Proc)
    requires p.scan in s.db.jobs
    ensures PcOkHere(env, s, p.(pc := DispatchClaim, since := s.clock))
  {}

  lemma AfterLoadPreserves(env: Env, s: System, pid: Id)
    requires Inv(env, s) && pid in s.procs && !Admitting(s.procs[pid].pc)
    requires s.procs[pid].scan in s.db.jobs && s.procs[pid].begun <= |s.responses|
    ensures var t := AfterLoad(s, pid, s.db.jobs[s.procs[pid].scan]); Inv(env, t) && Evolves(s, t)
  {
    hide Inv, Evolves, Seen, PcOkHere, Move, Answer;
    var p := s.procs[pid];
    var job := s.db.jobs[p.scan];
    CurrentRowSeen(env, s, p);
    ClaimPcOk(env, s, p);
    if IsActive(job) && job.scannerId.Some? {
      FetchMovePreserves(env, s, pid, job);
    } else if job.status == QUEUED {
      MovePreserves(env, s, pid, DispatchClaim);
    } else {
      AnswerPreserves(env, s, pid, job);
    }
  }

  lemma ArrivingPollServes(env: Env, s: System, pid: Id, scan: Id)
    requires scan in s.db.jobs && RowOk(s, scan) && pid !in s.procs
    ensures var job := s.db.jobs[scan];
      var p := Proc(scan, job.owner, job.request, None, true, |s.responses|, s.clock, Ended);
      var t := s.(procs := s.procs[pid := p]);
      ServingOk(env, t, t.procs[pid]) && Bystander(s, t, pid) && OnlyProcs(s, t)
  {}

  lemma PollArrivalPreserves(env: Env, s: System, pid: Id, scan: Id)
    requires Inv(env, s) && CanArrive(s, pid, Poll(scan))
    ensures Inv(env, BeginPollStep(s, pid, scan)) && Evolves(s, BeginPollStep(s, pid, scan))
  {
    hide Inv, Evolves, ServingOk, Bystander, OnlyProcs, RowOk;
    var job := s.db.jobs[scan];
    var t := s.(procs := s.procs[pid := Proc(scan, job.owner, job.request, None, true, |s.responses|, s.clock, Ended)]);
    RowIsOk(env, s, scan);
    ArrivingPollServes(env, s, pid, scan);
    QuietPreserves(env, s, t, pid);
    AfterLoadPreserves(env, t, pid);
    EvolvesTransitive(s, t, BeginPollStep(s, pid, scan));
  }
}
