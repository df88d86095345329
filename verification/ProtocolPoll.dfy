// The single steps of a poll that meets no fault, computed one by one.
module ProtocolPoll {
  import opened Collections
  import opened ScanTasks
  import opened ScanRecords
  import opened DispatchProtocol
  import opened ProtocolInvariant
  import opened ProtocolQuiet
  import opened ProtocolWorld
  import opened ProtocolSafety
  import opened ProtocolRuns
  import Store = JobStore
  import Go = GoEngine

  // ------------------------------------------------------------ single steps

  ghost predicate Took(env: Env, s: System, a: Action, t: System) {
    Enabled(env, s, a) && t == Apply(env, s, a)
  }

  // A poll of `scan`, up to date with the clock, about to do what pc says.
  ghost predicate Serving(s: System, pid: Id, scan: Id, pc: Pc) {
    && pid in s.procs && scan in s.db.jobs
    && var p := s.procs[pid];
       && p.scan == scan && p.polling && p.since == s.clock && p.pc == pc
       && p.owner == s.db.jobs[scan].owner && p.request == s.db.jobs[scan].request
  }

  // The caller has its answer, and it is the row as it now stands.
  ghost predicate Answered(s: System, t: System, pid: Id, scan: Id) {
    && pid !in t.procs && scan in t.db.jobs && |t.responses| == |s.responses| + 1
    && t.responses[|s.responses|].scan == scan && t.responses[|s.responses|].job == t.db.jobs[scan]
  }

  // Everything a poll's quiet steps leave alone.
  ghost predicate Quiet(s: System, t: System) {
    && t.db == s.db && t.engine == s.engine && t.clock == s.clock
    && t.tokens == s.tokens && t.responses == s.responses
  }

  // No message is sent and none is answered.
  ghost predicate SameMail(s: System, t: System) {
    t.sent == s.sent && t.replies == s.replies
  }

  lemma TookKeeps(env: Env, s: System, a: Action, t: System)
    requires Inv(env, s) && Took(env, s, a, t)
    ensures Inv(env, t) && Evolves(s, t) && !t.refused
  {
    hide Inv, Evolves, Enabled, Apply;
    StepPreserves(env, s, a);
    NotRefused(env, t);
  }

  predicate LeaseFree(j: Job, at: Time) {
    j.leaseExpires.None? || j.leaseExpires.value <= at
  }

  ghost predicate Leased(s: System, scan: Id, token: Id) {
    HoldsLease(s.db, scan, token)
  }

  // The step that a program counter enables, and what it computes.

  lemma TakeClaim(env: Env, s: System, pid: Id, token: Id)
    requires pid in s.procs && s.procs[pid].since == s.clock
    requires var p := s.procs[pid]; p.pc == DispatchClaim && token !in s.tokens
    ensures Took(env, s, Proceed(pid, Claim(token, s.clock)), ClaimStep(env, s, pid, token, s.clock))
  {
    hide ProceedStep, RuleAdmits, ValidPins;
    ProceedIs(env, s, pid, Claim(token, s.clock));
  }

  lemma TakeAuthorize(env: Env, s: System, pid: Id, decision: Decision)
    requires pid in s.procs && s.procs[pid].since == s.clock
    requires var p := s.procs[pid]; p.pc.DispatchAuthorize?
    requires var p := s.procs[pid]; decision.Grant? ==>
      && decision.rule in s.db.rules && ValidPins(decision.pins)
      && RuleAdmits(env, s.db.rules[decision.rule], p.owner, p.request, s.clock)
    ensures Took(env, s, Proceed(pid, Authorize(decision, s.clock)), AuthorizeStep(s, pid, decision))
  {
    hide ProceedStep, RuleAdmits, ValidPins;
    ProceedIs(env, s, pid, Authorize(decision, s.clock));
  }

  lemma TakeAttach(env: Env, s: System, pid: Id)
    requires pid in s.procs && s.procs[pid].since == s.clock
    requires var p := s.procs[pid]; p.pc.DispatchAttach?
    ensures Took(env, s, Proceed(pid, Attach(s.clock)), AttachStep(s, pid, s.clock))
  {
    hide ProceedStep, RuleAdmits, ValidPins;
    ProceedIs(env, s, pid, Attach(s.clock));
  }

  lemma TakeSend(env: Env, s: System, pid: Id)
    requires pid in s.procs && s.procs[pid].since == s.clock
    requires var p := s.procs[pid]; p.pc.DispatchSend?
    ensures Took(env, s, Proceed(pid, SendCreate), SendStep(s, pid))
  {
    hide ProceedStep, RuleAdmits, ValidPins;
    ProceedIs(env, s, pid, SendCreate);
  }

  lemma TakeReceive(env: Env, s: System, pid: Id)
    requires pid in s.procs && s.procs[pid].since == s.clock
    requires var p := s.procs[pid]; p.pc.DispatchAwait? && p.pc.token in s.replies
    ensures Took(env, s, Proceed(pid, ReceiveCreate), ReceiveStep(s, pid))
  {
    hide ProceedStep, RuleAdmits, ValidPins;
    ProceedIs(env, s, pid, ReceiveCreate);
  }

  lemma TakeRecord(env: Env, s: System, pid: Id)
    requires pid in s.procs && s.procs[pid].since == s.clock
    requires var p := s.procs[pid]; p.pc.DispatchMark?
    ensures Took(env, s, Proceed(pid, RecordDispatch(s.clock)), RecordDispatchStep(s, pid, s.clock))
  {
    hide ProceedStep, RuleAdmits, ValidPins;
    ProceedIs(env, s, pid, RecordDispatch(s.clock));
  }

  lemma TakeFailure(env: Env, s: System, pid: Id)
    requires pid in s.procs && s.procs[pid].since == s.clock
    requires var p := s.procs[pid]; p.pc.DispatchFail?
    ensures Took(env, s, Proceed(pid, RecordFailure(s.clock)), RecordFailureStep(s, pid, s.clock))
  {
    hide ProceedStep, RuleAdmits, ValidPins;
    ProceedIs(env, s, pid, RecordFailure(s.clock));
  }

  lemma TakeReload(env: Env, s: System, pid: Id)
    requires pid in s.procs && s.procs[pid].since == s.clock
    requires var p := s.procs[pid]; p.pc == DispatchReturned && p.polling && p.scan in s.db.jobs
    ensures Took(env, s, Proceed(pid, Reload), ReloadStep(s, pid))
  {
    hide ProceedStep, RuleAdmits, ValidPins;
    ProceedIs(env, s, pid, Reload);
  }

  lemma TakeFetch(env: Env, s: System, pid: Id)
    requires pid in s.procs && s.procs[pid].since == s.clock
    requires var p := s.procs[pid]; p.pc.PollFetch?
    ensures Took(env, s, Proceed(pid, Fetch(Reached)), FetchStep(s, pid, Reached))
  {
    hide ProceedStep, RuleAdmits, ValidPins;
    ProceedIs(env, s, pid, Fetch(Reached));
  }

  lemma TakeSynchronize(env: Env, s: System, pid: Id)
    requires pid in s.procs && s.procs[pid].since == s.clock
    requires var p := s.procs[pid]; p.pc.PollSynchronize? || p.pc.PollFail?
    ensures Took(env, s, Proceed(pid, Synchronize(s.clock)), SynchronizeStep(s, pid, s.clock))
  {
    hide ProceedStep, RuleAdmits, ValidPins;
    ProceedIs(env, s, pid, Synchronize(s.clock));
  }

  lemma TakeRefresh(env: Env, s: System, pid: Id)
    requires pid in s.procs && s.procs[pid].since == s.clock
    requires var p := s.procs[pid]; p.pc.PollRefresh? && p.scan in s.db.jobs
    ensures Took(env, s, Proceed(pid, Refresh), RefreshStep(s, pid))
  {
    hide ProceedStep, RuleAdmits, ValidPins;
    ProceedIs(env, s, pid, Refresh);
  }

  lemma TakeRead(env: Env, s: System, pid: Id)
    requires pid in s.procs && s.procs[pid].since == s.clock
    requires var p := s.procs[pid]; p.pc.PollResults?
    ensures Took(env, s, Proceed(pid, ReadResults),
                 Respond(s, pid, s.procs[pid].pc.job, ResultsOf(s.db, s.procs[pid].scan), false))
  {
    hide ProceedStep, RuleAdmits, ValidPins;
    ProceedIs(env, s, pid, ReadResults);
  }

  lemma TakePoll(env: Env, s: System, pid: Id, scan: Id)
    requires pid !in s.procs && scan in s.db.jobs
    ensures Took(env, s, Arrive(pid, Poll(scan)), BeginPollStep(s, pid, scan))
  {
    hide BeginPollStep, ProceedStep, CanProceed, HappenStep, CanHappen;
  }

  function Arriving(s: System, pid: Id, scan: Id): System
    requires scan in s.db.jobs
  {
    var job := s.db.jobs[scan];
    s.(procs := s.procs[pid := Proc(scan, job.owner, job.request, None, true, |s.responses|, s.clock, Ended)])
  }

  lemma ArriveFetches(env: Env, s: System, pid: Id, scan: Id) returns (t: System)
    requires pid !in s.procs && scan in s.db.jobs && IsActive(s.db.jobs[scan]) && s.db.jobs[scan].scannerId.Some?
    ensures Took(env, s, Arrive(pid, Poll(scan)), t) && Quiet(s, t) && SameMail(s, t)
    ensures Serving(t, pid, scan, PollFetch(s.db.jobs[scan].scannerId.value, s.db.jobs[scan]))
  {
    hide Took, Answer;
    TakePoll(env, s, pid, scan);
    t := Move(Arriving(s, pid, scan), pid, PollFetch(s.db.jobs[scan].scannerId.value, s.db.jobs[scan]));
    assert t == BeginPollStep(s, pid, scan);
  }

  lemma ArriveDispatches(env: Env, s: System, pid: Id, scan: Id) returns (t: System)
    requires pid !in s.procs && scan in s.db.jobs && s.db.jobs[scan].status == QUEUED && s.db.jobs[scan].scannerId.None?
    ensures Took(env, s, Arrive(pid, Poll(scan)), t) && Quiet(s, t) && SameMail(s, t)
    ensures Serving(t, pid, scan, DispatchClaim)
  {
    hide Took, Answer;
    TakePoll(env, s, pid, scan);
    t := Move(Arriving(s, pid, scan), pid, DispatchClaim);
    assert t == BeginPollStep(s, pid, scan);
  }

  lemma ArriveReads(env: Env, s: System, pid: Id, scan: Id) returns (t: System)
    requires pid !in s.procs && scan in s.db.jobs && s.db.jobs[scan].status == COMPLETED
    ensures Took(env, s, Arrive(pid, Poll(scan)), t) && Quiet(s, t) && SameMail(s, t)
    ensures Serving(t, pid, scan, PollResults(s.db.jobs[scan]))
  {
    hide Took, Respond;
    TakePoll(env, s, pid, scan);
    t := Move(Arriving(s, pid, scan), pid, PollResults(s.db.jobs[scan]));
    assert t == BeginPollStep(s, pid, scan);
  }

  lemma ArriveAnswers(env: Env, s: System, pid: Id, scan: Id) returns (t: System)
    requires pid !in s.procs && scan in s.db.jobs && IsTerminal(s.db.jobs[scan]) && s.db.jobs[scan].status != COMPLETED
    ensures Took(env, s, Arrive(pid, Poll(scan)), t) && Answered(s, t, pid, scan)
    ensures t.db == s.db && t.engine == s.engine && t.clock == s.clock && SameMail(s, t)
  {
    hide Took;
    TakePoll(env, s, pid, scan);
    t := Respond(Arriving(s, pid, scan), pid, s.db.jobs[scan], map[], false);
    assert t == BeginPollStep(s, pid, scan);
  }

  // Each of the following computes one step of the poll. A refused write is
  // left open here; TookKeeps rules it out.

  // A write that is not refused lands, and the poll goes on.
  lemma Lands(s: System, pid: Id, scan: Id, pc: Pc, w: Write, applied: Pc, skipped: Pc)
    requires Serving(s, pid, scan, pc) && !w.Unchanged?
    requires w.Applied? ==>
      && scan in w.db.jobs && w.db.jobs[scan].owner == s.db.jobs[scan].owner
      && w.db.jobs[scan].request == s.db.jobs[scan].request
    ensures var t := Settle(s, pid, w, applied, skipped);
      !t.refused ==> w.Applied? && Serving(t, pid, scan, applied) && t == s.(db := w.db, procs := t.procs)
  {}

  lemma ClaimWrites(db: Database, scan: Id, token: Id, leaseSeconds: nat, at: Time)
    requires scan in db.jobs && db.jobs[scan].status == QUEUED && db.jobs[scan].scannerId.None?
    requires LeaseFree(db.jobs[scan], at)
    ensures var w := ClaimDispatch(db, scan, token, leaseSeconds, at);
      && !w.Unchanged?
      && (w.Applied? ==>
            && scan in w.db.jobs && HoldsLease(w.db, scan, token) && w.db.rules == db.rules
            && w.db.jobs[scan].owner == db.jobs[scan].owner && w.db.jobs[scan].request == db.jobs[scan].request)
  {
    hide RowChecks, ScannerIdUnique;
  }

  lemma ClaimRuns(env: Env, s: System, pid: Id, scan: Id, token: Id) returns (t: System)
    requires Serving(s, pid, scan, DispatchClaim) && token !in s.tokens
    requires s.db.jobs[scan].status == QUEUED && s.db.jobs[scan].scannerId.None? && LeaseFree(s.db.jobs[scan], s.clock)
    ensures Took(env, s, Proceed(pid, Claim(token, s.clock)), t)
    ensures !t.refused ==>
      && Serving(t, pid, scan, DispatchAuthorize(token)) && Leased(t, scan, token)
      && t.db.jobs[scan].owner == s.db.jobs[scan].owner && t.db.jobs[scan].request == s.db.jobs[scan].request
      && t.db.rules == s.db.rules && t.engine == s.engine && t.clock == s.clock && t.responses == s.responses
      && SameMail(s, t)
  {
    hide Took, ClaimDispatch, Settle, HoldsLease;
    TakeClaim(env, s, pid, token);
    t := ClaimStep(env, s, pid, token, s.clock);
    var w := ClaimDispatch(s.db, scan, token, env.leaseSeconds, s.clock);
    ClaimWrites(s.db, scan, token, env.leaseSeconds, s.clock);
    var u := s.(tokens := s.tokens[token := scan], claims := if w.Applied? then
      s.claims[scan := (if scan in s.claims then s.claims[scan] else []) + [token]] else s.claims);
    Lands(u, pid, scan, DispatchClaim, w, DispatchAuthorize(token), DispatchReturned);
  }

  lemma AuthorizeRuns(env: Env, s: System, pid: Id, scan: Id, token: Id, decision: Decision) returns (t: System)
    requires Serving(s, pid, scan, DispatchAuthorize(token))
    requires decision.Grant? ==>
      && decision.rule in s.db.rules && ValidPins(decision.pins)
      && RuleAdmits(env, s.db.rules[decision.rule], s.db.jobs[scan].owner, s.db.jobs[scan].request, s.clock)
    ensures Took(env, s, Proceed(pid, Authorize(decision, s.clock)), t) && Quiet(s, t) && SameMail(s, t)
    ensures Serving(t, pid, scan, if decision.Grant? then DispatchAttach(token, decision.rule, decision.pins)
                                  else DispatchFail(token, decision.code, true))
  {
    hide Took, RuleAdmits, ValidPins;
    TakeAuthorize(env, s, pid, decision);
    t := AuthorizeStep(s, pid, decision);
  }

  lemma AttachWrites(db: Database, scan: Id, rule: Id, token: Id, at: Time)
    requires HoldsLease(db, scan, token)
    requires rule in db.rules && db.rules[rule].enabled && Unexpired(db.rules[rule], at)
    ensures var w := AttachAllowedTarget(db, scan, rule, token, at);
      && !w.Unchanged?
      && (w.Applied? ==>
            && scan in w.db.jobs && HoldsLease(w.db, scan, token)
            && w.db.jobs[scan].owner == db.jobs[scan].owner && w.db.jobs[scan].request == db.jobs[scan].request)
  {
    hide RowChecks, ScannerIdUnique;
  }

  lemma AttachRuns(env: Env, s: System, pid: Id, scan: Id, token: Id, rule: Id, pins: seq<Address>)
    returns (t: System, attachment: Attachment)
    requires Serving(s, pid, scan, DispatchAttach(token, rule, pins)) && Leased(s, scan, token)
    requires rule in s.db.rules && s.db.rules[rule].enabled && Unexpired(s.db.rules[rule], s.clock)
    ensures Took(env, s, Proceed(pid, Attach(s.clock)), t)
    ensures !t.refused ==>
      && Serving(t, pid, scan, DispatchSend(attachment)) && attachment.token == token && Leased(t, scan, token)
      && t.engine == s.engine && t.clock == s.clock && t.responses == s.responses
      && SameMail(s, t)
  {
    hide Took, AttachAllowedTarget, Settle, HoldsLease;
    TakeAttach(env, s, pid);
    t := AttachStep(s, pid, s.clock);
    attachment := Attachment(token, scan, rule, s.db.rules[rule], s.clock, pins);
    AttachWrites(s.db, scan, rule, token, s.clock);
    var w, failed := AttachAllowedTarget(s.db, scan, rule, token, s.clock), DispatchFail(token, BlockedTarget, true);
    Lands(s.(attachments := s.attachments + {attachment}), pid, scan, s.procs[pid].pc, w,
          DispatchSend(attachment), failed);
    Lands(s, pid, scan, s.procs[pid].pc, w, failed, failed);
  }

  lemma SendRuns(env: Env, s: System, pid: Id, scan: Id, attachment: Attachment) returns (t: System)
    requires Serving(s, pid, scan, DispatchSend(attachment))
    ensures Took(env, s, Proceed(pid, SendCreate), t) && Quiet(s, t)
    ensures t.replies == s.replies
    ensures Serving(t, pid, scan, DispatchAwait(attachment.token))
    ensures attachment.token in t.sent && t.sent[attachment.token].scan == scan
  {
    hide Took;
    TakeSend(env, s, pid);
    t := SendStep(s, pid);
  }

  // The scanner has room: it answers with a verdict or with a job.
  lemma HandleRuns(env: Env, s: System, pid: Id, scan: Id, token: Id, verdict: Option<FailureCode>, scannerId: Id)
    returns (t: System)
    requires LinksOk(env, s) && Go.EngineOk(s.engine) && Serving(s, pid, scan, DispatchAwait(token))
    requires token in s.sent && s.sent[token].scan == scan && scannerId !in s.engine.origin
    requires |s.engine.workers.Keys| < s.engine.store.maxActive
    ensures Took(env, s, Happen(HandleCreate(token, verdict, scannerId)), t)
    ensures Serving(t, pid, scan, DispatchAwait(token)) && token in t.replies
    ensures t.replies[token].Accepted? || t.replies[token].BadRequest?
    ensures token !in t.sent
    ensures t.db == s.db && t.clock == s.clock && t.responses == s.responses
  {
    hide LinksOk, Go.Receive, Go.EngineOk;
    t := HandleStep(s, token, verdict, scannerId);
    if verdict.None? {
      RetryNeverConflicts(env, s, token, scannerId);
      RoomMeansAJob(s.engine, scannerId, s.sent[token].config, scan, s.clock);
    }
  }

  lemma RoomMeansAJob(e: Go.Engine, id: Id, config: ScanConfig, key: Id, now: Time)
    requires Go.EngineOk(e) && |e.workers.Keys| < e.store.maxActive
    ensures !Go.Receive(e, id, config, Some(key), now).1.LimitReached?
  {
    hide Go.Receive, Go.Created, Go.JobsOk, Go.LimitsOk;
    if key in e.store.keys {
      Go.ReceiveKnown(e, id, config, key, now);
    } else {
      Go.ReceiveNew(e, id, config, Some(key), now);
    }
  }

  lemma ReceiveRuns(env: Env, s: System, pid: Id, scan: Id, token: Id) returns (t: System)
    requires LinksOk(env, s) && Serving(s, pid, scan, DispatchAwait(token)) && ServingOk(env, s, s.procs[pid])
    requires token in s.replies && (s.replies[token].Accepted? || s.replies[token].BadRequest?)
    ensures Took(env, s, Proceed(pid, ReceiveCreate), t) && Quiet(s, t) && SameMail(s, t)
    ensures s.replies[token].Accepted? ==> Serving(t, pid, scan, DispatchMark(token, s.replies[token].scannerId))
    ensures s.replies[token].BadRequest? ==>
      Serving(t, pid, scan, DispatchFail(token, s.replies[token].code, s.replies[token].code == BlockedTarget))
  {
    hide Took, LinksOk, ServingOk;
    TakeReceive(env, s, pid);
    t := ReceiveStep(s, pid);
    ReplyBelieved(env, s, s.procs[pid], token, s.replies[token]);
  }

  lemma MarkWrites(db: Database, scan: Id, scannerId: Id, token: Id, at: Time)
    requires HoldsLease(db, scan, token)
    ensures var w := MarkDispatched(db, scan, db.jobs[scan].owner, scannerId, token, at);
      && !w.Unchanged?
      && (w.Applied? ==>
            && scan in w.db.jobs && w.db.jobs[scan].status == RUNNING && w.db.jobs[scan].scannerId == Some(scannerId)
            && w.db.jobs[scan].owner == db.jobs[scan].owner && w.db.jobs[scan].request == db.jobs[scan].request)
  {
    hide RowChecks, ScannerIdUnique, EventAllowed;
  }

  lemma MarkRuns(env: Env, s: System, pid: Id, scan: Id, token: Id, scannerId: Id) returns (t: System)
    requires Serving(s, pid, scan, DispatchMark(token, scannerId)) && Leased(s, scan, token)
    ensures Took(env, s, Proceed(pid, RecordDispatch(s.clock)), t)
    ensures !t.refused ==>
      && Serving(t, pid, scan, DispatchReturned) && t.clock == s.clock && t.responses == s.responses
      && SameMail(s, t)
      && t.db.jobs[scan].status == RUNNING && t.db.jobs[scan].scannerId == Some(scannerId)
  {
    hide Took, MarkDispatched, Settle, HoldsLease;
    TakeRecord(env, s, pid);
    t := RecordDispatchStep(s, pid, s.clock);
    MarkWrites(s.db, scan, scannerId, token, s.clock);
    Lands(s, pid, scan, s.procs[pid].pc,
          MarkDispatched(s.db, scan, s.db.jobs[scan].owner, scannerId, token, s.clock),
          DispatchReturned, DispatchReturned);
  }

  lemma FailWrites(db: Database, scan: Id, code: FailureCode, blocked: bool, token: Id, at: Time)
    requires HoldsLease(db, scan, token)
    ensures var w := MarkDispatchFailed(db, scan, db.jobs[scan].owner, code, blocked, token, at);
      && !w.Unchanged?
      && (w.Applied? ==>
            && scan in w.db.jobs && w.db.jobs[scan].status == (if blocked then BLOCKED else FAILED)
            && w.db.jobs[scan].owner == db.jobs[scan].owner && w.db.jobs[scan].request == db.jobs[scan].request)
  {
    hide RowChecks, ScannerIdUnique, EventAllowed;
  }

  lemma FailRuns(env: Env, s: System, pid: Id, scan: Id, token: Id, code: FailureCode, blocked: bool)
    returns (t: System)
    requires Serving(s, pid, scan, DispatchFail(token, code, blocked)) && Leased(s, scan, token)
    ensures Took(env, s, Proceed(pid, RecordFailure(s.clock)), t)
    ensures !t.refused ==>
      && Serving(t, pid, scan, DispatchReturned) && t.clock == s.clock && t.responses == s.responses
      && SameMail(s, t)
      && IsTerminal(t.db.jobs[scan]) && t.db.jobs[scan].status != COMPLETED
  {
    hide Took, MarkDispatchFailed, Settle, HoldsLease;
    TakeFailure(env, s, pid);
    t := RecordFailureStep(s, pid, s.clock);
    FailWrites(s.db, scan, code, blocked, token, s.clock);
    Lands(s, pid, scan, s.procs[pid].pc,
          MarkDispatchFailed(s.db, scan, s.db.jobs[scan].owner, code, blocked, token, s.clock),
          DispatchReturned, DispatchReturned);
  }

  // What a poll does with a row that is not to be dispatched.
  lemma ReloadRuns(env: Env, s: System, pid: Id, scan: Id) returns (t: System)
    requires Serving(s, pid, scan, DispatchReturned)
    requires s.db.jobs[scan].scannerId.Some? ||
      (s.db.jobs[scan].status != COMPLETED && s.db.jobs[scan].status != QUEUED)
    ensures Took(env, s, Proceed(pid, Reload), t) && t.db == s.db && t.engine == s.engine && t.clock == s.clock
    ensures SameMail(s, t)
    ensures if s.db.jobs[scan].scannerId.Some?
            then
              && Serving(t, pid, scan, PollFetch(s.db.jobs[scan].scannerId.value, s.db.jobs[scan]))
              && t.responses == s.responses
            else Answered(s, t, pid, scan)
  {
    hide Took;
    TakeReload(env, s, pid);
    t := ReloadStep(s, pid);
  }

  lemma FetchRuns(env: Env, s: System, pid: Id, scan: Id, scannerId: Id, job: Job) returns (t: System)
    requires LinksOk(env, s) && Go.EngineOk(s.engine) && JobsOk(s)
    requires Serving(s, pid, scan, PollFetch(scannerId, job)) && ServingOk(env, s, s.procs[pid])
    ensures Took(env, s, Proceed(pid, Fetch(Reached)), t) && Quiet(s, t) && SameMail(s, t)
    ensures Serving(t, pid, scan, if scannerId in s.engine.store.jobs
                                  then PollSynchronize(scannerId, s.engine.store.jobs[scannerId])
                                  else PollFail(ScanNotFound))
  {
    hide Took, LinksOk, JobsOk, Go.EngineOk, ServingOk, AfterFetch;
    TakeFetch(env, s, pid);
    FetchIs(env, s, s.procs[pid], scannerId, job);
    t := FetchStep(s, pid, Reached);
  }

  lemma RefreshAnswers(env: Env, s: System, pid: Id, scan: Id, failed: bool) returns (t: System)
    requires Serving(s, pid, scan, PollRefresh(failed)) && (s.db.jobs[scan].status != COMPLETED || failed)
    ensures Took(env, s, Proceed(pid, Refresh), t) && Answered(s, t, pid, scan)
    ensures t.db == s.db && t.engine == s.engine && t.clock == s.clock && SameMail(s, t)
  {
    hide Took;
    TakeRefresh(env, s, pid);
    t := RefreshStep(s, pid);
    assert t == Respond(s, pid, s.db.jobs[scan], map[], failed);
  }

  lemma RefreshReads(env: Env, s: System, pid: Id, scan: Id) returns (t: System)
    requires Serving(s, pid, scan, PollRefresh(false)) && s.db.jobs[scan].status == COMPLETED
    ensures Took(env, s, Proceed(pid, Refresh), t) && Quiet(s, t) && SameMail(s, t)
    ensures Serving(t, pid, scan, PollResults(s.db.jobs[scan]))
  {
    hide Took, Respond;
    TakeRefresh(env, s, pid);
    t := RefreshStep(s, pid);
    assert t == Move(s, pid, PollResults(s.db.jobs[scan]));
  }

  lemma ReadRuns(env: Env, s: System, pid: Id, scan: Id) returns (t: System)
    requires scan in s.db.jobs && Serving(s, pid, scan, PollResults(s.db.jobs[scan]))
    ensures Took(env, s, Proceed(pid, ReadResults), t) && t.db == s.db && t.engine == s.engine && t.clock == s.clock
    ensures Answered(s, t, pid, scan) && SameMail(s, t)
  {
    hide Took;
    TakeRead(env, s, pid);
    t := Respond(s, pid, s.db.jobs[scan], ResultsOf(s.db, scan), false);
  }

  lemma SynchronizeWrites(s: System, p: Proc, answer: Store.ScanJob, at: Time)
    requires p.scan in s.db.jobs && s.db.jobs[p.scan].owner == p.owner
    ensures var w := SynchronizeWrite(s, p, answer, at);
      && (w.Applied? ==>
            && p.scan in w.db.jobs && IsTerminal(w.db.jobs[p.scan])
            && w.db.jobs[p.scan].owner == s.db.jobs[p.scan].owner
            && w.db.jobs[p.scan].request == s.db.jobs[p.scan].request)
      && (w.Unchanged? ==> Store.Active(answer) || IsTerminal(s.db.jobs[p.scan]))
  {
    hide RowChecks, ScannerIdUnique, EventAllowed;
  }

  lemma LostWrites(db: Database, scan: Id, code: FailureCode, at: Time)
    requires scan in db.jobs
    ensures var w := MarkSynchronizationFailed(db, scan, db.jobs[scan].owner, code, at);
      && (w.Applied? ==>
            && scan in w.db.jobs && IsTerminal(w.db.jobs[scan])
            && w.db.jobs[scan].owner == db.jobs[scan].owner && w.db.jobs[scan].request == db.jobs[scan].request)
      && (w.Unchanged? ==> IsTerminal(db.jobs[scan]))
  {
    hide RowChecks, ScannerIdUnique, EventAllowed;
  }

  // A write that may also match nothing.
  lemma LandsOrNot(s: System, pid: Id, scan: Id, pc: Pc, w: Write, next: Pc)
    requires Serving(s, pid, scan, pc)
    requires w.Applied? ==>
      && scan in w.db.jobs && w.db.jobs[scan].owner == s.db.jobs[scan].owner
      && w.db.jobs[scan].request == s.db.jobs[scan].request
    ensures var t := Settle(s, pid, w, next, next);
      !t.refused ==>
        && !w.Refused? && Serving(t, pid, scan, next)
        && t == s.(db := if w.Applied? then w.db else s.db, procs := t.procs)
  {}

  // Whatever the scanner said, an active row is settled unless the scanner's
  // job is still active.
  lemma SynchronizeRuns(env: Env, s: System, pid: Id, scan: Id, scannerId: Id, answer: Store.ScanJob)
    returns (t: System)
    requires Serving(s, pid, scan, PollSynchronize(scannerId, answer))
    ensures Took(env, s, Proceed(pid, Synchronize(s.clock)), t)
    ensures !t.refused ==>
      && Serving(t, pid, scan, PollRefresh(false)) && t.responses == s.responses && t.engine == s.engine
      && t.clock == s.clock && SameMail(s, t)
      && (IsTerminal(t.db.jobs[scan]) || (Store.Active(answer) && t.db == s.db))
  {
    hide Took, SynchronizeWrite, Settle, IsTerminal;
    TakeSynchronize(env, s, pid);
    t := SynchronizeStep(s, pid, s.clock);
    SynchronizeWrites(s, s.procs[pid], answer, s.clock);
    LandsOrNot(s, pid, scan, s.procs[pid].pc, SynchronizeWrite(s, s.procs[pid], answer, s.clock), PollRefresh(false));
  }

  lemma LostRuns(env: Env, s: System, pid: Id, scan: Id, code: FailureCode) returns (t: System)
    requires Serving(s, pid, scan, PollFail(code))
    ensures Took(env, s, Proceed(pid, Synchronize(s.clock)), t)
    ensures !t.refused ==>
      && Serving(t, pid, scan, PollRefresh(true)) && t.responses == s.responses && t.engine == s.engine
      && t.clock == s.clock && SameMail(s, t) && IsTerminal(t.db.jobs[scan])
  {
    hide Took, MarkSynchronizationFailed, Settle, IsTerminal;
    TakeSynchronize(env, s, pid);
    t := SynchronizeStep(s, pid, s.clock);
    LostWrites(s.db, scan, code, s.clock);
    LandsOrNot(s, pid, scan, s.procs[pid].pc, MarkSynchronizationFailed(s.db, scan, s.procs[pid].owner, code, s.clock),
               PollRefresh(true));
  }

  // A scanner job is at work exactly while it is stored and active.
  lemma WorksOn(env: Env, s: System, g: Id)
    requires Inv(env, s)
    ensures g in s.engine.workers <==> g in s.engine.store.jobs && Store.Active(s.engine.store.jobs[g])
  {
    hide Inv, LinksOk, JobsOk, Go.JobsOk, Go.KeysOk, Go.LimitsOk, Store.Active;
    LinksOf(env, s);
    assert g in s.engine.workers.Keys <==> g in Store.ActiveIds(s.engine.store.jobs);
  }
}
