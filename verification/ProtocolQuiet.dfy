// The steps of a request that write no row: decisions, messages, answers.
module ProtocolQuiet {
  import opened Collections
  import opened ScanTasks
  import opened ScanRecords
  import opened DispatchProtocol
  import opened ProtocolInvariant
  import opened ProtocolSteps
  import Go = GoEngine
  import Contract = ScannerContract

  lemma PcOf(env: Env, s: System, pid: Id)
    requires Inv(env, s) && pid in s.procs && !Admitting(s.procs[pid].pc)
    ensures ServingOk(env, s, s.procs[pid])
  {
    hide Inv, PcOk, JobOk, ServingOk;
    ServingProc(env, s, pid);
  }

  lemma PlainPcOk(env: Env, s: System, p: Proc, pc: Pc)
    requires p.scan in s.db.jobs
    requires pc == DispatchReturned || pc == Ended || pc.PollRefresh? || pc.DispatchFail?
    ensures PcOkHere(env, s, p.(pc := pc, since := s.clock))
  {}

  // ---------------------------------------------------------------- authorization

  lemma AuthorizePcOk(env: Env, s: System, p: Proc, token: Id, rule: Id, pins: seq<Address>, at: Time)
    requires p.pc == DispatchAuthorize(token) && ServingOk(env, s, p)
    requires rule in s.db.rules && ValidPins(pins) && RuleAdmits(env, s.db.rules[rule], p.owner, p.request, at)
    ensures PcOkHere(env, s, p.(pc := DispatchAttach(token, rule, pins), since := s.clock))
  {}

  lemma AuthorizePreserves(env: Env, s: System, pid: Id, decision: Decision, at: Time)
    requires CanProceed(env, s, pid, Authorize(decision, at)) && Inv(env, s)
    ensures Keeps(env, s, ProceedStep(env, s, pid, Authorize(decision, at)))
  {
    hide Inv, Evolves, PcOkHere, ServingOk, Move;
    PcOf(env, s, pid);
    var p, token := s.procs[pid], s.procs[pid].pc.token;
    match decision
    case Grant(rule, pins) => {
      AuthorizePcOk(env, s, p, token, rule, pins, at);
      MovePreserves(env, s, pid, DispatchAttach(token, rule, pins));
    }
    case Deny(code) => {
      ServingScan(env, s, p);
      PlainPcOk(env, s, p, DispatchFail(token, code, true));
      MovePreserves(env, s, pid, DispatchFail(token, code, true));
    }
  }

  lemma ServingScan(env: Env, s: System, p: Proc)
    requires ServingOk(env, s, p)
    ensures p.scan in s.db.jobs && p.begun <= |s.responses| && s.db.jobs[p.scan].request == p.request
    ensures s.db.jobs[p.scan].owner == p.owner && s.db.jobs[p.scan].createdAt <= p.since <= s.clock
  {
    hide PcOk;
  }

  // -------------------------------------------------------------- the create call

  // The scanner's reply is believed: it is never a conflict and never the echo
  // of some other request.
  lemma ReplyBelieved(env: Env, s: System, p: Proc, token: Id, reply: Reply)
    requires LinksOk(env, s) && ServingOk(env, s, p) && p.pc == DispatchAwait(token)
    requires token in s.replies && s.replies[token] == reply
    ensures !reply.Conflicting? && (reply.Accepted? ==> reply.request == p.request)
    ensures PcOkHere(env, s, p.(pc := AfterReply(p, token, reply), since := s.clock))
    ensures !Admitting(AfterReply(p, token, reply))
  {
    hide AttachmentOk, MessageOk, OriginOk;
    assert ReplyOk(s, token);
  }

  lemma LinksOf(env: Env, s: System)
    requires Inv(env, s)
    ensures LinksOk(env, s) && Go.EngineOk(s.engine) && JobsOk(s)
  {
    hide LinksOk, JobsOk, ProcsOk, LocksOk, RoomOk, ResponsesOk, ClaimsOk, StrayOk, ScansDistinct, Go.EngineOk;
  }

  lemma ReceivePreserves(env: Env, s: System, pid: Id)
    requires CanProceed(env, s, pid, ReceiveCreate) && Inv(env, s)
    ensures Keeps(env, s, ProceedStep(env, s, pid, ReceiveCreate))
  {
    hide Inv, Evolves, PcOkHere, ServingOk, AfterReply, Move, LinksOk, JobsOk, Go.EngineOk;
    PcOf(env, s, pid);
    LinksOf(env, s);
    var p, token := s.procs[pid], s.procs[pid].pc.token;
    ReplyBelieved(env, s, p, token, s.replies[token]);
    MovePreserves(env, s, pid, AfterReply(p, token, s.replies[token]));
  }

  lemma GiveUpPreserves(env: Env, s: System, pid: Id)
    requires CanProceed(env, s, pid, GiveUp) && Inv(env, s)
    ensures Keeps(env, s, ProceedStep(env, s, pid, GiveUp))
  {
    hide Inv, Evolves, PcOkHere, ServingOk, Move;
    PcOf(env, s, pid);
    ServingScan(env, s, s.procs[pid]);
    PlainPcOk(env, s, s.procs[pid], DispatchReturned);
    MovePreserves(env, s, pid, DispatchReturned);
  }

  // An answer that createScannerJob cannot use: a status it does not expect or
  // a body it cannot read.
  lemma MisreadPreserves(env: Env, s: System, pid: Id)
    requires CanProceed(env, s, pid, Misread) && Inv(env, s)
    ensures Keeps(env, s, ProceedStep(env, s, pid, Misread))
  {
    hide Inv, Evolves, PcOkHere, ServingOk, Move;
    PcOf(env, s, pid);
    ServingScan(env, s, s.procs[pid]);
    var failed := DispatchFail(s.procs[pid].pc.token, InternalError, false);
    PlainPcOk(env, s, s.procs[pid], failed);
    MovePreserves(env, s, pid, failed);
  }

  // Sending is a move that leaves a message behind.
  lemma SentLinks(env: Env, s: System, t: System, p: Proc, a: Attachment)
    requires LinksOk(env, s) && ServingOk(env, s, p) && p.pc == DispatchSend(a) && Evolves(s, t)
    requires t.attachments == s.attachments && t.replies == s.replies
    requires t.sent == s.sent[a.token := Message(a, p.scan, ScanConfig(p.request, a.pins))]
    requires t.creators == s.creators && t.engine == s.engine && t.dials == s.dials
    ensures LinksOk(env, t)
  {
    hide AttachmentOk, ReplyOk, Evolves;
    forall x | x in t.attachments ensures AttachmentOk(env, t, x) {
      AttachmentStaysOk(env, s, t, x);
    }
    forall token | token in t.sent ensures MessageOk(t, token) {
      if token != a.token {
        MessageStaysOk(s, t, token);
      } else {
        ServingStaysOk(env, s, t, p);
      }
    }
    forall token | token in t.replies ensures ReplyOk(t, token) {
      ReplyStaysOk(s, t, token);
    }
    forall g | g in t.engine.origin ensures OriginOk(t, g) {
      assert OriginOk(s, g);
      OriginStaysOk(s, t, g);
    }
  }

  lemma SendLeavesRows(s: System, pid: Id, a: Attachment)
    requires pid in s.procs && s.procs[pid].pc == DispatchSend(a)
    ensures var t := SendStep(s, pid);
      RowsStill(s, t) && t.db == s.db && t.responses == s.responses && Bystander(s, t, pid) && t.engine == s.engine
  {}

  lemma AwaitPcOk(env: Env, s: System, p: Proc, a: Attachment)
    requires LinksOk(env, s) && ServingOk(env, s, p) && p.pc == DispatchSend(a)
    ensures PcOkHere(env, s, p.(pc := DispatchAwait(a.token), since := s.clock))
  {
    hide MessageOk, OriginOk, ReplyOk, RuleAdmits;
    assert AttachmentOk(env, s, a);
  }

  lemma SendServing(env: Env, s: System, pid: Id, a: Attachment)
    requires pid in s.procs && ServingOk(env, s, s.procs[pid]) && s.procs[pid].pc == DispatchSend(a)
    requires PcOkHere(env, s, s.procs[pid].(pc := DispatchAwait(a.token), since := s.clock))
    ensures ServingOk(env, SendStep(s, pid), SendStep(s, pid).procs[pid])
  {}

  lemma SendPreserves(env: Env, s: System, pid: Id)
    requires CanProceed(env, s, pid, SendCreate) && Inv(env, s)
    ensures Keeps(env, s, ProceedStep(env, s, pid, SendCreate))
  {
    hide Evolves, PcOkHere, ServingOk, LinksOk, JobOk, Go.EngineOk, ProcsOk, LocksOk, RoomOk, ResponsesOk,
      ClaimsOk, StrayOk, ScansDistinct, NoNewActive, Bystander, SameJob, JobsOk, RowsStill;
    PcOf(env, s, pid);
    var p, t := s.procs[pid], SendStep(s, pid);
    var a := p.pc.attachment;
    SendLeavesRows(s, pid, a);
    RowsStillEvolves(s, t);
    RowsStillKeeps(s, t);
    RowsStillJobsOk(s, t);
    AwaitPcOk(env, s, p, a);
    SendServing(env, s, pid, a);
    SentLinks(env, s, t, p, a);
    ResponsesFrame(s, t);
    BystanderPreserves(env, s, t, pid, pid);
  }

  // ------------------------------------------------------------------- the poll

  lemma ReloadPreserves(env: Env, s: System, pid: Id)
    requires CanProceed(env, s, pid, Reload) && Inv(env, s)
    ensures Keeps(env, s, ProceedStep(env, s, pid, Reload))
  {
    hide Inv, Evolves, ServingOk, Seen, Move, Answer;
    PcOf(env, s, pid);
    ServingScan(env, s, s.procs[pid]);
    var job := s.db.jobs[s.procs[pid].scan];
    if job.scannerId.Some? {
      FetchMovePreserves(env, s, pid, job);
    } else {
      CurrentRowSeen(env, s, s.procs[pid]);
      AnswerPreserves(env, s, pid, job);
    }
  }

  // What the scanner holds for a recorded id always passes the API's checks.
  lemma FetchedMatches(env: Env, s: System, scan: Id, scannerId: Id, job: Job)
    requires LinksOk(env, s) && Go.EngineOk(s.engine)
    requires scan in s.db.jobs && LinkOk(s, scan) && s.db.jobs[scan].scannerId == Some(scannerId)
    requires JobEvolves(job, s.db.jobs[scan]) && scannerId in s.engine.store.jobs
    ensures scannerId in s.engine.origin
    ensures AfterFetch(s, scannerId, job) == PollSynchronize(scannerId, s.engine.store.jobs[scannerId])
    ensures Go.WellShaped(s.engine.store.jobs[scannerId], s.engine.origin[scannerId].config)
  {
    hide CompleteOutput, AttachmentOk, MessageOk, ReplyOk, Go.KeysOk, Go.WorkersOk, Go.LimitsOk;
    assert OriginOk(s, scannerId);
    assert Go.JobOk(s.engine, scannerId);
    Contract.EngineResponsesPass(s.engine, scannerId, job);
  }

  lemma FetchedPcOk(env: Env, s: System, p: Proc, scannerId: Id, job: Job)
    requires LinksOk(env, s) && Go.EngineOk(s.engine) && JobsOk(s)
    requires p.pc == PollFetch(scannerId, job) && ServingOk(env, s, p)
    ensures var pc := AfterFetch(s, scannerId, job);
      && pc != PollMismatch && !Admitting(pc)
      && (pc.PollFail? <==> scannerId !in s.engine.store.jobs)
      && PcOkHere(env, s, p.(pc := pc, since := s.clock))
    ensures PcOkHere(env, s, p.(pc := PollFail(InternalError), since := s.clock))
  {
    hide LinksOk, Go.EngineOk, Go.WellShaped, Contract.ValidLifecycleShape, Contract.ResponseMatchesJob, RowOk,
      HistoryOk, StoredOk;
    assert JobOk(s, p.scan);
    if scannerId in s.engine.store.jobs {
      FetchedMatches(env, s, p.scan, scannerId, job);
    }
  }

  lemma FetchPreserves(env: Env, s: System, pid: Id, outcome: FetchOutcome)
    requires CanProceed(env, s, pid, Fetch(outcome)) && Inv(env, s)
    ensures Keeps(env, s, ProceedStep(env, s, pid, Fetch(outcome)))
  {
    hide Inv, Evolves, PcOkHere, ServingOk, AfterFetch, Move, LinksOk, JobsOk, Go.EngineOk;
    PcOf(env, s, pid);
    LinksOf(env, s);
    var p := s.procs[pid];
    ServingScan(env, s, p);
    FetchedPcOk(env, s, p, p.pc.scannerId, p.pc.job);
    PlainPcOk(env, s, p, Ended);
    match outcome
    case Reached => MovePreserves(env, s, pid, AfterFetch(s, p.pc.scannerId, p.pc.job));
    case Unreachable => MovePreserves(env, s, pid, Ended);
    case Garbled => MovePreserves(env, s, pid, PollFail(InternalError));
  }

  lemma RefreshPreserves(env: Env, s: System, pid: Id)
    requires CanProceed(env, s, pid, Refresh) && Inv(env, s)
    ensures Keeps(env, s, ProceedStep(env, s, pid, Refresh))
  {
    hide Inv, Evolves, ServingOk, Seen, Answer, Respond;
    PcOf(env, s, pid);
    var p := s.procs[pid];
    ServingScan(env, s, p);
    var job := s.db.jobs[p.scan];
    CurrentRowSeen(env, s, p);
    if p.pc.failed {
      RespondPreserves(env, s, pid, job, map[], true);
    } else {
      AnswerPreserves(env, s, pid, job);
    }
  }

  lemma ReadyToRead(env: Env, s: System, p: Proc, job: Job)
    requires p.pc == PollResults(job) && ServingOk(env, s, p)
    ensures p.scan in s.db.jobs && job.status == COMPLETED && Seen(s, p, job)
  {}

  lemma ReadResultsPreserves(env: Env, s: System, pid: Id)
    requires CanProceed(env, s, pid, ReadResults) && Inv(env, s)
    ensures Keeps(env, s, ProceedStep(env, s, pid, ReadResults))
  {
    hide Inv, Evolves, Seen, Respond, ServingOk;
    PcOf(env, s, pid);
    var p := s.procs[pid];
    ReadyToRead(env, s, p, p.pc.job);
    RespondPreserves(env, s, pid, p.pc.job, ResultsOf(s.db, p.scan), false);
  }
}
