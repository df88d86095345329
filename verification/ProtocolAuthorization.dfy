// Where the authorization of a dial comes from, told of the committed rows: the
// statement that attached the rule, the rule as the table held it at that
// moment, and the lease under which it was attached.
module ProtocolAuthorization {
  import opened Collections
  import opened ScanTasks
  import opened ScanRecords
  import opened DispatchProtocol
  import opened ProtocolInvariant
  import opened ProtocolSafety
  import opened ProtocolRuns
  import Go = GoEngine

  // The step that makes an attachment: it found the row queued under the token,
  // the rule enabled and unexpired, and left the rule's id in the row.
  ghost predicate Attaches(s: System, a: Action, t: System, made: Attachment) {
    && a.Proceed? && a.step == Attach(made.at) && made.at <= s.clock
    && a.pid in s.procs && s.procs[a.pid].scan == made.scan
    && s.procs[a.pid].pc == DispatchAttach(made.token, made.ruleId, made.pins)
    && made.scan in s.db.jobs && made.scan in t.db.jobs && made.ruleId in s.db.rules
    && s.db.jobs[made.scan].status == QUEUED && s.db.jobs[made.scan].leaseToken == Some(made.token)
    && s.db.rules[made.ruleId] == made.rule && made.rule.enabled
    && (made.rule.expiresAt.Some? ==> made.at < made.rule.expiresAt.value)
    && t.db.jobs[made.scan].allowedTarget == Some(made.ruleId)
  }

  lemma SettleAttaches(s: System, pid: Id, w: Write, applied: Pc, skipped: Pc)
    requires pid in s.procs
    ensures var t := Settle(s, pid, w, applied, skipped);
      t.attachments == s.attachments && t.db == if w.Applied? then w.db else s.db
  {}

  // ------------------------------------------------------------- the other steps

  lemma MovingSteps(s: System, pid: Id, pc: Pc)
    requires pid in s.procs
    ensures Move(s, pid, pc).attachments == s.attachments
  {}

  lemma RespondingSteps(s: System, pid: Id, job: Job, results: map<Endpoint, PortState>, failed: bool)
    requires pid in s.procs
    ensures Respond(s, pid, job, results, failed).attachments == s.attachments
  {}

  lemma LoadingSteps(s: System, pid: Id, job: Job)
    requires pid in s.procs
    ensures Answer(s, pid, job).attachments == s.attachments
    ensures AfterLoad(s, pid, job).attachments == s.attachments
  {
    hide Move, Respond;
    RespondingSteps(s, pid, job, map[], false);
    MovingSteps(s, pid, PollResults(job));
    MovingSteps(s, pid, DispatchClaim);
    if job.scannerId.Some? {
      MovingSteps(s, pid, PollFetch(job.scannerId.value, job));
    }
  }

  lemma AdmissionSteps(env: Env, s: System, pid: Id)
    requires pid in s.procs
    ensures Unlock(env, s, pid).attachments == s.attachments
    ensures TakeLockStep(env, s, pid).attachments == s.attachments
    ensures CountStep(env, s, pid).attachments == s.attachments
  {
    hide ActiveOf;
  }

  lemma CommitAttachesNothing(env: Env, s: System, pid: Id)
    requires pid in s.procs && s.procs[pid].pc.AdmitCommit?
    ensures CommitStep(env, s, pid).attachments == s.attachments
  {
    hide Settle, InsertQueued;
    var p := s.procs[pid];
    if p.pc.admitted {
      SettleAttaches(Unlock(env, s, pid), pid,
                     InsertQueued(s.db, p.scan, p.owner, p.request, p.rule, p.since), DispatchClaim, Ended);
    }
  }

  lemma ClaimAttachesNothing(env: Env, s: System, pid: Id, token: Id, at: Time)
    requires pid in s.procs
    ensures ClaimStep(env, s, pid, token, at).attachments == s.attachments
  {
    hide Settle, ClaimDispatch;
    var p := s.procs[pid];
    var w := ClaimDispatch(s.db, p.scan, token, env.leaseSeconds, at);
    var earlier := if p.scan in s.claims then s.claims[p.scan] else [];
    SettleAttaches(s.(tokens := s.tokens[token := p.scan],
                      claims := if w.Applied? then s.claims[p.scan := earlier + [token]] else s.claims),
                   pid, w, DispatchAuthorize(token), DispatchReturned);
  }

  lemma RecordingSteps(s: System, pid: Id, at: Time)
    requires pid in s.procs
    ensures s.procs[pid].pc.DispatchMark? ==> RecordDispatchStep(s, pid, at).attachments == s.attachments
    ensures s.procs[pid].pc.DispatchFail? ==> RecordFailureStep(s, pid, at).attachments == s.attachments
  {
    hide MarkDispatched, MarkDispatchFailed, Settle;
    var p := s.procs[pid];
    if p.pc.DispatchMark? {
      SettleAttaches(s, pid, MarkDispatched(s.db, p.scan, p.owner, p.pc.scannerId, p.pc.token, at),
                     DispatchReturned, DispatchReturned);
    }
    if p.pc.DispatchFail? {
      SettleAttaches(s, pid, MarkDispatchFailed(s.db, p.scan, p.owner, p.pc.code, p.pc.blocked, p.pc.token, at),
                     DispatchReturned, DispatchReturned);
    }
  }

  lemma SynchronizingSteps(s: System, pid: Id, at: Time)
    requires pid in s.procs
    requires s.procs[pid].pc.PollSynchronize? || s.procs[pid].pc.PollFail? || s.procs[pid].pc == PollMismatch
    ensures SynchronizeStep(s, pid, at).attachments == s.attachments
  {
    hide MarkSynchronizationFailed, SynchronizeWrite, Settle;
    var p := s.procs[pid];
    match p.pc
    case PollSynchronize(scannerId, answer) =>
      SettleAttaches(s, pid, SynchronizeWrite(s, p, answer, at), PollRefresh(false), PollRefresh(false));
    case PollFail(code) =>
      SettleAttaches(s, pid, MarkSynchronizationFailed(s.db, p.scan, p.owner, code, at),
                     PollRefresh(true), PollRefresh(true));
    case _ =>
      SettleAttaches(s, pid, MarkSynchronizationFailed(s.db, p.scan, p.owner, InternalError, at), Ended, Ended);
  }

  lemma PollingSteps(s: System, pid: Id)
    requires pid in s.procs && s.procs[pid].scan in s.db.jobs
    ensures ReloadStep(s, pid).attachments == s.attachments
    ensures s.procs[pid].pc.PollRefresh? ==> RefreshStep(s, pid).attachments == s.attachments
  {
    hide Move, Respond, Answer;
    var job := s.db.jobs[s.procs[pid].scan];
    LoadingSteps(s, pid, job);
    RespondingSteps(s, pid, job, map[], true);
    if job.scannerId.Some? {
      MovingSteps(s, pid, PollFetch(job.scannerId.value, job));
    }
  }

  lemma MessageSteps(s: System, pid: Id, decision: Decision, outcome: FetchOutcome)
    requires pid in s.procs
    ensures s.procs[pid].pc.DispatchAuthorize? ==> AuthorizeStep(s, pid, decision).attachments == s.attachments
    ensures s.procs[pid].pc.DispatchSend? ==> SendStep(s, pid).attachments == s.attachments
    ensures s.procs[pid].pc.DispatchAwait? && s.procs[pid].pc.token in s.replies ==>
      ReceiveStep(s, pid).attachments == s.attachments
    ensures s.procs[pid].pc.PollFetch? ==> FetchStep(s, pid, outcome).attachments == s.attachments
  {
    hide AfterReply, AfterFetch;
  }

  lemma OtherStepsAttachNothing(env: Env, s: System, pid: Id, step: Step)
    requires CanProceed(env, s, pid, step) && !step.Attach?
    ensures ProceedStep(env, s, pid, step).attachments == s.attachments
  {
    hide ProceedStep, TakeLockStep, CountStep, CommitStep, ClaimStep, RecordDispatchStep, RecordFailureStep,
      SynchronizeStep, ReloadStep, RefreshStep, AuthorizeStep, SendStep, ReceiveStep, FetchStep, RuleAdmits,
      ValidPins, Respond, Unlock, Move;
    ProceedIs(env, s, pid, step);
    var p := s.procs[pid];
    match step
    case TakeLock => AdmissionSteps(env, s, pid);
    case CountActive => AdmissionSteps(env, s, pid);
    case InsertRow =>
    case CommitAdmission => CommitAttachesNothing(env, s, pid);
    case Claim(token, at) => ClaimAttachesNothing(env, s, pid, token, at);
    case Authorize(decision, at) => MessageSteps(s, pid, decision, Reached);
    case GiveUp => MovingSteps(s, pid, DispatchReturned);
    case Misread => MovingSteps(s, pid, DispatchFail(p.pc.token, InternalError, false));
    case RecordDispatch(at) => RecordingSteps(s, pid, at);
    case RecordFailure(at) => RecordingSteps(s, pid, at);
    case Reload => PollingSteps(s, pid);
    case Fetch(outcome) => MessageSteps(s, pid, Deny(InternalError), outcome);
    case Synchronize(at) => SynchronizingSteps(s, pid, at);
    case Refresh => PollingSteps(s, pid);
    case ReadResults => RespondingSteps(s, pid, p.pc.job, ResultsOf(s.db, p.scan), false);
    case Stop => AdmissionSteps(env, s, pid);
    case _ => MessageSteps(s, pid, Deny(InternalError), Reached);
  }

  lemma HandlingAttachesNothing(s: System, token: Id, verdict: Option<FailureCode>, scannerId: Id)
    requires token in s.sent
    ensures HandleStep(s, token, verdict, scannerId).attachments == s.attachments
  {
    hide Go.Receive, ReplyTo;
  }

  lemma EventsAttachNothing(s: System, event: Event)
    requires CanHappen(s, event)
    ensures HappenStep(s, event).attachments == s.attachments
  {
    hide InsertBlocked, Go.Start, Go.Finish, Go.Restart, Go.Possible, Go.ScannerOutput, HandleStep;
    if event.HandleCreate? {
      HandlingAttachesNothing(s, event.token, event.verdict, event.scannerId);
    }
  }

  lemma ArrivalsAttachNothing(s: System, pid: Id, arrival: Arrival)
    requires CanArrive(s, pid, arrival)
    ensures ArriveStep(s, pid, arrival).attachments == s.attachments
  {
    hide AfterLoad;
    match arrival
    case Admission(scan, owner, request, matched) =>
    case Poll(scan) =>
      var job := s.db.jobs[scan];
      var p := Proc(scan, job.owner, job.request, None, true, |s.responses|, s.clock, Ended);
      LoadingSteps(s.(procs := s.procs[pid := p]), pid, job);
  }

  // ------------------------------------------------------------------ attachments

  lemma AttachingAttaches(env: Env, s: System, pid: Id, at: Time, made: Attachment)
    requires CanProceed(env, s, pid, Attach(at))
    requires made in ProceedStep(env, s, pid, Attach(at)).attachments && made !in s.attachments
    ensures Attaches(s, Proceed(pid, Attach(at)), ProceedStep(env, s, pid, Attach(at)), made)
  {
    hide ProceedStep, Settle, RowChecks, ScannerIdUnique, EventAllowed, RuleAdmits;
    ProceedIs(env, s, pid, Attach(at));
    var p := s.procs[pid];
    var w := AttachAllowedTarget(s.db, p.scan, p.pc.rule, p.pc.token, at);
    var failed := DispatchFail(p.pc.token, BlockedTarget, true);
    if w.Applied? {
      var a := Attachment(p.pc.token, p.scan, p.pc.rule, s.db.rules[p.pc.rule], at, p.pc.pins);
      SettleAttaches(s.(attachments := s.attachments + {a}), pid, w, DispatchSend(a), failed);
    } else {
      SettleAttaches(s, pid, w, failed, failed);
    }
  }

  lemma OneStepAttaches(env: Env, s: System, a: Action, made: Attachment)
    requires Enabled(env, s, a) && made in Apply(env, s, a).attachments && made !in s.attachments
    ensures Attaches(s, a, Apply(env, s, a), made)
  {
    hide CanArrive, CanHappen, CanProceed, ArriveStep, HappenStep, ProceedStep, Attaches;
    match a
    case Arrive(pid, arrival) => ArrivalsAttachNothing(s, pid, arrival);
    case Happen(event) => EventsAttachNothing(s, event);
    case Proceed(pid, step) =>
      if step.Attach? {
        AttachingAttaches(env, s, pid, step.at, made);
      } else {
        OtherStepsAttachNothing(env, s, pid, step);
      }
  }

  // Every attachment on record was made by a step of the execution.
  lemma {:induction false} EveryAttachmentIsMade(env: Env, states: seq<System>, actions: seq<Action>, n: nat,
                                                 made: Attachment)
    returns (i: nat)
    requires Execution(env, states, actions) && Init(env, states[0]) && n <= |actions| && made in states[n].attachments
    ensures i < n && Attaches(states[i], actions[i], states[i + 1], made)
    decreases n
  {
    hide Enabled, Apply, Attaches;
    assert n > 0;
    hide Init;
    if made in states[n - 1].attachments {
      i := EveryAttachmentIsMade(env, states, actions, n - 1, made);
    } else {
      i := n - 1;
      OneStepAttaches(env, states[i], actions[i], made);
    }
  }

  // For every address ever dialled there is a moment at which a dispatcher, its
  // lease on the queued row in force, attached a rule to it, and the rule table
  // held this very rule: enabled, unexpired, open to the owner and covering
  // target and ports. The address is one that this dispatcher had pinned.
  lemma EveryDialWasAttached(env: Env, states: seq<System>, actions: seq<Action>, n: nat, scannerId: Id,
                             address: Address)
    returns (i: nat)
    requires Execution(env, states, actions) && Init(env, states[0]) && n <= |actions|
    requires (scannerId, address) in states[n].dials
    ensures i < n && actions[i].Proceed? && actions[i].step.Attach? && actions[i].step.at <= states[i].clock
    ensures actions[i].pid in states[i].procs && states[i].procs[actions[i].pid].pc.DispatchAttach?
    ensures var p, db := states[i].procs[actions[i].pid], states[i].db;
      && address in p.pc.pins && p.scan in db.jobs && p.pc.rule in db.rules
      && var j, rule := db.jobs[p.scan], db.rules[p.pc.rule];
         && j.status == QUEUED && j.leaseToken == Some(p.pc.token)
         && rule.enabled && (rule.expiresAt.Some? ==> actions[i].step.at < rule.expiresAt.value)
         && (rule.scope.Some? ==> rule.scope.value == j.owner)
         && (rule.ports.Some? ==>
               rule.ports.value.0 <= j.request.startPort <= j.request.endPort <= rule.ports.value.1)
         && env.covers(rule.target, j.request.target)
         && p.scan in states[i + 1].db.jobs
         && states[i + 1].db.jobs[p.scan].allowedTarget == Some(p.pc.rule)
  {
    hide Inv, Init, Enabled, Apply;
    EveryDialWasAuthorized(env, states, actions, n, scannerId, address);
    var made := states[n].creators[scannerId];
    i := EveryAttachmentIsMade(env, states, actions, n, made);
    RowsFollowTheAutomaton(env, states, actions, i, n, made.scan);
  }
}
