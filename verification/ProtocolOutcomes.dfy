// What happened is what is recorded: the policy's refusal, the scanner's reply
// and the scanner's answer each end up in the row as what they were, whatever
// other requests do between a request's decision and its write.
module ProtocolOutcomes {
  import opened Collections
  import opened ScanTasks
  import opened ScanRecords
  import opened DispatchProtocol
  import opened ProtocolInvariant
  import opened ProtocolQuiet
  import opened ProtocolSync
  import opened ProtocolSafety
  import opened ProtocolRuns
  import opened ProtocolAnswers
  import opened ProtocolFirstLease
  import opened ProtocolTenure
  import Store = JobStore
  import Go = GoEngine

  // At n the request takes the first step after the one it took at m.
  ghost predicate NextStep(states: seq<System>, actions: seq<Action>, m: nat, n: nat, pid: Id) {
    && m < n < |actions| && |states| == |actions| + 1
    && actions[m].Proceed? && actions[m].pid == pid && actions[n].Proceed? && actions[n].pid == pid
    && forall k :: m < k < n ==> !Acts(actions[k], pid)
  }

  lemma {:induction false} StandsStill(env: Env, states: seq<System>, actions: seq<Action>, m: nat, k: nat, n: nat,
                                       pid: Id)
    requires Execution(env, states, actions) && NextStep(states, actions, m, n, pid) && m < k <= n
    ensures pid in states[m + 1].procs <==> pid in states[k].procs
    ensures pid in states[k].procs ==> states[k].procs[pid] == states[m + 1].procs[pid]
    decreases k
  {
    hide Enabled, Apply, Acts;
    if k > m + 1 {
      StandsStill(env, states, actions, m, k - 1, n, pid);
      assert Enabled(env, states[k - 1], actions[k - 1]) && states[k] == Apply(env, states[k - 1], actions[k - 1]);
      Untouched(env, states[k - 1], actions[k - 1], pid);
    }
  }

  lemma Acted(env: Env, states: seq<System>, actions: seq<Action>, m: nat, n: nat, pid: Id)
    requires Execution(env, states, actions) && NextStep(states, actions, m, n, pid)
    ensures CanProceed(env, states[m], pid, actions[m].step)
    ensures states[m + 1] == ProceedStep(env, states[m], pid, actions[m].step)
    ensures CanProceed(env, states[n], pid, actions[n].step)
    ensures states[n + 1] == ProceedStep(env, states[n], pid, actions[n].step)
    ensures pid in states[m].procs && pid in states[m + 1].procs && pid in states[n].procs
    ensures states[n].procs[pid] == states[m + 1].procs[pid]
  {
    hide CanProceed, ProceedStep;
    assert Enabled(env, states[m], actions[m]) && states[m + 1] == Apply(env, states[m], actions[m]);
    assert Enabled(env, states[n], actions[n]) && states[n + 1] == Apply(env, states[n], actions[n]);
    ProceedersAreThere(env, states[m], pid, actions[m].step);
    ProceedersAreThere(env, states[n], pid, actions[n].step);
    StandsStill(env, states, actions, m, n, n, pid);
  }

  // ------------------------------------------------------------------- dispatch

  // What a refusal, a failed attach and a reply make the request do.
  lemma Decides(env: Env, s: System, pid: Id, step: Step, t: System, token: Id)
    requires Inv(env, s) && CanProceed(env, s, pid, step) && t == ProceedStep(env, s, pid, step)
    requires pid in s.procs && Held(s.procs[pid].pc) == Some(token) && pid in t.procs
    requires t.procs[pid].pc.DispatchMark? || t.procs[pid].pc.DispatchFail?
    ensures match step
      case Authorize(decision, _) => decision.Deny? && t.procs[pid].pc == DispatchFail(token, decision.code, true)
      case Attach(_) => t.procs[pid].pc == DispatchFail(token, BlockedTarget, true)
      case ReceiveCreate =>
        && token in s.replies
        && (match s.replies[token]
            case Accepted(scannerId, _) => t.procs[pid].pc == DispatchMark(token, scannerId)
            case BadRequest(code) => t.procs[pid].pc == DispatchFail(token, code, code == BlockedTarget)
            case _ => false)
      case Misread => t.procs[pid].pc == DispatchFail(token, InternalError, false)
      case _ => true
  {
    hide Inv, ServingOk, LinksOk, JobsOk, Go.EngineOk, ProceedStep, RuleAdmits, TakeLockStep, CountStep, ClaimStep,
      CommitStep, AttachStep, SendStep, RecordDispatchStep, RecordFailureStep, ReloadStep, FetchStep, SynchronizeStep,
      RefreshStep, Respond, Move, Drop, Unlock, AfterReply, Mine;
    var p := s.procs[pid];
    ProceedIs(env, s, pid, step);
    match step
    case Authorize(decision, at) =>
      match decision {
        case Grant(rule, pins) => MoveIsMine(s, pid, DispatchAttach(p.pc.token, rule, pins));
        case Deny(code) => MoveIsMine(s, pid, DispatchFail(p.pc.token, code, true));
      }
    case Attach(at) => AttachDecides(s, pid, at);
    case ReceiveCreate =>
      PcOf(env, s, pid);
      LinksOf(env, s);
      MoveIsMine(s, pid, AfterReply(p, token, s.replies[token]));
      ReplyDecides(env, s, p, token);
    case Misread => MoveIsMine(s, pid, DispatchFail(p.pc.token, InternalError, false));
    case _ =>
  }

  lemma AttachDecides(s: System, pid: Id, at: Time)
    requires pid in s.procs && s.procs[pid].pc.DispatchAttach?
    ensures var t := AttachStep(s, pid, at);
      pid in t.procs ==>
        t.procs[pid].pc.DispatchSend? || t.procs[pid].pc == DispatchFail(s.procs[pid].pc.token, BlockedTarget, true)
  {
    hide Settle, Put, Mine;
    var p := s.procs[pid];
    var w := AttachAllowedTarget(s.db, p.scan, p.pc.rule, p.pc.token, at);
    var failed := DispatchFail(p.pc.token, BlockedTarget, true);
    if w.Applied? {
      var a := Attachment(p.pc.token, p.scan, p.pc.rule, s.db.rules[p.pc.rule], at, p.pc.pins);
      SettleIsMine(s.(attachments := s.attachments + {a}), pid, w, DispatchSend(a), failed);
    } else {
      SettleIsMine(s, pid, w, failed, failed);
    }
  }

  lemma ReplyDecides(env: Env, s: System, p: Proc, token: Id)
    requires LinksOk(env, s) && ServingOk(env, s, p) && p.pc == DispatchAwait(token) && token in s.replies
    ensures match s.replies[token]
      case Accepted(scannerId, _) => AfterReply(p, token, s.replies[token]) == DispatchMark(token, scannerId)
      case BadRequest(code) =>
        AfterReply(p, token, s.replies[token]) == DispatchFail(token, code, code == BlockedTarget)
      case Conflicting => false
      case Limited => AfterReply(p, token, s.replies[token]) == DispatchReturned
  {
    hide LinksOk, ServingOk;
    ReplyBelieved(env, s, p, token, s.replies[token]);
  }

  // What the row becomes when a claimant, whose claim is still the last, records
  // what it has just learned: blocked with the policy's code, blocked when the
  // rule could not be attached, running as the scanner job that accepted it,
  // blocked or failed with the code of the scanner's refusal.
  lemma OutcomeIsRecorded(env: Env, states: seq<System>, actions: seq<Action>, c: nat, m: nat, n: nat, pid: Id,
                          scan: Id, token: Id)
    requires Execution(env, states, actions) && Init(env, states[0]) && c < m
    requires ClaimedAt(env, states, actions, c, pid, scan, token) && NextStep(states, actions, m, n, pid)
    requires pid in states[m].procs && Held(states[m].procs[pid].pc) == Some(token)
    requires actions[n].step.RecordDispatch? || actions[n].step.RecordFailure?
    requires scan in states[n].claims && states[n].claims[scan] != [] && LastClaim(states[n], scan) == token
    ensures scan in states[n + 1].db.jobs
    ensures var j := states[n + 1].db.jobs[scan];
      match actions[m].step
      case Authorize(decision, _) => decision.Deny? && j.status == BLOCKED && j.failure == Some(decision.code)
      case Attach(_) => j.status == BLOCKED && j.failure == Some(BlockedTarget)
      case ReceiveCreate =>
        && token in states[m].replies
        && (match states[m].replies[token]
            case Accepted(scannerId, _) => j.status == RUNNING && j.scannerId == Some(scannerId)
            case BadRequest(code) =>
              j.failure == Some(code) && j.status == (if code == BlockedTarget then BLOCKED else FAILED)
            case _ => false)
      case Misread => j.status == FAILED && j.failure == Some(InternalError)
      case _ => true
  {
    hide Inv, Init, Enabled, Apply, CanProceed, ProceedStep, ClaimedAt, ClaimDispatch, Keeping;
    Acted(env, states, actions, m, n, pid);
    RecordStepIs(env, states[n], pid, actions[n].step);
    StillHolds(env, states, actions, c, m, n, pid, scan, token);
    ReachableOk(env, states, actions, m);
    Decides(env, states[m], pid, actions[m].step, states[m + 1], token);
    RecordsAreApplied(env, states, actions, c, n, pid, scan, token);
  }

  lemma StillHolds(env: Env, states: seq<System>, actions: seq<Action>, c: nat, m: nat, n: nat, pid: Id, scan: Id,
                   token: Id)
    requires Execution(env, states, actions) && Init(env, states[0]) && c < m
    requires ClaimedAt(env, states, actions, c, pid, scan, token) && NextStep(states, actions, m, n, pid)
    requires pid in states[m].procs && Held(states[m].procs[pid].pc) == Some(token)
    requires actions[n].step.RecordDispatch? || actions[n].step.RecordFailure?
    ensures pid in states[n].procs && Held(states[n].procs[pid].pc) == Some(token)
  {
    hide Inv, Init, Enabled, Apply, CanProceed, ProceedStep, ClaimedAt, ClaimDispatch;
    Acted(env, states, actions, m, n, pid);
    StepIsKeeping(env, states[m], pid, actions[m].step);
    RecordStepIs(env, states[n], pid, actions[n].step);
    HoldersDoNotClaim(env, states[m], pid, actions[m].step);
  }

  lemma HoldersDoNotClaim(env: Env, s: System, pid: Id, step: Step)
    requires CanProceed(env, s, pid, step) && Held(s.procs[pid].pc).Some?
    ensures !step.Claim?
  {
    hide RuleAdmits;
  }

  // Any reply at all: it is believed only if it is about the same scan, it blocks
  // the scan only if the scanner says that the target is blocked, and only a full
  // scanner is asked again later.
  lemma RepliesAreRead(p: Proc, token: Id, reply: Reply, scannerId: Id)
    ensures var pc := AfterReply(p, token, reply);
      && (pc == DispatchMark(token, scannerId) <==> reply == Accepted(scannerId, p.request))
      && (pc == DispatchReturned <==> reply == Limited)
      && (pc.DispatchFail? && pc.blocked <==> reply == BadRequest(BlockedTarget))
      && (pc.DispatchFail? ==>
            pc.token == token && pc.code == if reply.BadRequest? then reply.code else InternalError)
      && (pc.DispatchMark? ==> pc.token == token)
      && (pc.DispatchMark? || pc.DispatchFail? || pc == DispatchReturned)
  {}

  // ------------------------------------------------------------- synchronization

  // Only an answer about the very scanner job and the very scan is used, and only
  // if its fields fit its status; so a result is there exactly when it is needed.
  // This is asked of the scanner's answer, not assumed of it.
  lemma OnlyMatchingAnswersAreUsed(s: System, scannerId: Id, job: Job)
    ensures var pc := AfterFetch(s, scannerId, job);
      pc.PollSynchronize? <==> (
        && scannerId in s.engine.store.jobs
        && var answer := s.engine.store.jobs[scannerId];
           && answer.id == scannerId && answer.request == job.request
           && (answer.status == Store.Completed <==> answer.result.Some?)
           && (answer.result.Some? ==> answer.result.value.request == job.request)
           && (answer.error != "" ==> answer.status == Store.Failed))
    ensures var pc := AfterFetch(s, scannerId, job);
      && (pc.PollSynchronize? ==> pc.scannerId == scannerId && pc.answer == s.engine.store.jobs[scannerId])
      && (pc == PollFail(ScanNotFound) <==> scannerId !in s.engine.store.jobs)
  {}

  lemma FetchDecides(env: Env, s: System, pid: Id, outcome: FetchOutcome, t: System)
    requires Inv(env, s) && CanProceed(env, s, pid, Fetch(outcome)) && t == ProceedStep(env, s, pid, Fetch(outcome))
    ensures pid in s.procs && pid in t.procs && s.procs[pid].pc.PollFetch? && t.procs[pid].scan == s.procs[pid].scan
    ensures t.procs[pid].owner == s.procs[pid].owner
    ensures var g := s.procs[pid].pc.scannerId;
      t.procs[pid].pc ==
        if outcome == Garbled then PollFail(InternalError)
        else if outcome == Unreachable then Ended
        else if g in s.engine.store.jobs then PollSynchronize(g, s.engine.store.jobs[g])
        else PollFail(ScanNotFound)
  {
    hide Inv, CanProceed, ProceedStep, AfterFetch;
    FetchSees(env, s, pid, outcome);
  }

  // What a synchronization leaves in the row.
  ghost predicate Synchronizes(s: System, t: System, scan: Id, pc: Pc)
    requires scan in s.db.jobs
  {
    if s.db.jobs[scan].status in {COMPLETED, FAILED, BLOCKED} then t.db == s.db
    else
      && scan in t.db.jobs
      && var j := t.db.jobs[scan];
         match pc
         case PollFail(code) => j.status == FAILED && j.failure == Some(code)
         case PollSynchronize(_, answer) =>
           (match answer.status
            case Completed =>
              j.status == COMPLETED && answer.result.Some? && j.duration == Some(answer.result.value.duration)
            case Failed => j.status == FAILED && j.failure == Some(ScannerFailed)
            case _ => t.db == s.db)
         case _ => true
  }

  lemma FailureSynchronizes(s: System, pid: Id, code: FailureCode, at: Time, next: Pc)
    requires pid in s.procs && s.procs[pid].scan in s.db.jobs
    ensures var scan := s.procs[pid].scan;
      var t := Settle(s, pid, MarkSynchronizationFailed(s.db, scan, s.procs[pid].owner, code, at), next, next);
      t.refused ||
        if s.db.jobs[scan].status in {COMPLETED, FAILED, BLOCKED} then t.db == s.db
        else scan in t.db.jobs && t.db.jobs[scan].status == FAILED && t.db.jobs[scan].failure == Some(code)
  {
    hide Put, Settle;
    var p := s.procs[pid];
    var j := s.db.jobs[p.scan];
    if IsActive(j) {
      PutSettles(s, pid, p.scan, j.(status := FAILED, failure := Some(code), finishedAt := Some(at), updatedAt := at),
                 Some(ServiceEvent(p.scan, p.owner, ScanFailed, Failure, Code(code), j.allowedTarget)), next);
    } else {
      SettleDb(s, pid, Unchanged, next, next);
    }
  }

  lemma CompletionSynchronizes(s: System, pid: Id, result: ScanResult, at: Time, next: Pc)
    requires pid in s.procs && s.procs[pid].scan in s.db.jobs
    requires s.db.jobs[s.procs[pid].scan].owner == s.procs[pid].owner
    ensures var scan := s.procs[pid].scan;
      var t := Settle(s, pid, SynchronizeCompleted(s.db, scan, s.procs[pid].owner, result, at), next, next);
      t.refused ||
        if s.db.jobs[scan].status in {COMPLETED, FAILED, BLOCKED} then t.db == s.db
        else
          && scan in t.db.jobs && t.db.jobs[scan].status == COMPLETED
          && t.db.jobs[scan].duration == Some(result.duration)
  {
    hide Put, Settle, InsertResults;
    var p := s.procs[pid];
    var w := SynchronizeCompleted(s.db, p.scan, p.owner, result, at);
    SettleDb(s, pid, w, next, next);
    if IsActive(s.db.jobs[p.scan]) {
      var j := s.db.jobs[p.scan];
      PutTouchesOne(s.db, p.scan,
                    j.(status := COMPLETED, duration := Some(result.duration), finishedAt := Some(at), updatedAt := at),
                    Some(ServiceEvent(p.scan, p.owner, ScanCompleted, Success,
                                      Counts(|result.results|, result.duration), j.allowedTarget)));
      PutIsNeverSkipped(s.db, p.scan,
                        j.(status := COMPLETED, duration := Some(result.duration), finishedAt := Some(at),
                           updatedAt := at),
                        Some(ServiceEvent(p.scan, p.owner, ScanCompleted, Success,
                                          Counts(|result.results|, result.duration), j.allowedTarget)));
      if w.Refused? {
        RefusalIsNoted(s, pid, w, next);
      }
    }
  }

  lemma PutIsNeverSkipped(db: Database, id: Id, j: Job, event: Option<AuditEvent>)
    ensures !Put(db, id, j, event).Unchanged?
  {
    hide RowChecks, ScannerIdUnique, EventAllowed;
  }

  lemma SynchronizeIs(s: System, pid: Id, at: Time)
    requires pid in s.procs && s.procs[pid].scan in s.db.jobs
    requires s.db.jobs[s.procs[pid].scan].owner == s.procs[pid].owner
    requires s.procs[pid].pc.PollSynchronize? || s.procs[pid].pc.PollFail?
    requires s.procs[pid].pc.PollSynchronize? && s.procs[pid].pc.answer.status == Store.Completed ==>
      s.procs[pid].pc.answer.result.Some?
    requires !SynchronizeStep(s, pid, at).refused
    ensures Synchronizes(s, SynchronizeStep(s, pid, at), s.procs[pid].scan, s.procs[pid].pc)
  {
    hide Settle, MarkSynchronizationFailed, SynchronizeCompleted;
    var p := s.procs[pid];
    match p.pc {
      case PollFail(code) => FailureSynchronizes(s, pid, code, at, PollRefresh(true));
      case PollSynchronize(scannerId, answer) =>
        match answer.status {
          case Failed => FailureSynchronizes(s, pid, ScannerFailed, at, PollRefresh(false));
          case Completed => CompletionSynchronizes(s, pid, answer.result.value, at, PollRefresh(false));
          case _ => SettleDb(s, pid, Unchanged, PollRefresh(false), PollRefresh(false));
        }
    }
  }

  // The row ends as the fetch found the scanner's job: completed with its
  // duration, failed because the scan failed, failed because the job is gone or
  // the answer unusable; a job still at work and a row already ended change
  // nothing.
  lemma FetchIsRecorded(env: Env, states: seq<System>, actions: seq<Action>, m: nat, n: nat, pid: Id)
    requires Execution(env, states, actions) && Init(env, states[0]) && NextStep(states, actions, m, n, pid)
    requires actions[m].step.Fetch? && actions[n].step.Synchronize?
    ensures pid in states[m].procs && states[m].procs[pid].pc.PollFetch?
    ensures states[m].procs[pid].scan in states[n].db.jobs
    ensures var g, jobs := states[m].procs[pid].pc.scannerId, states[m].engine.store.jobs;
      var pc := if actions[m].step.outcome == Garbled then PollFail(InternalError)
                else if g in jobs then PollSynchronize(g, jobs[g])
                else PollFail(ScanNotFound);
      Synchronizes(states[n], states[n + 1], states[m].procs[pid].scan, pc)
  {
    hide Inv, Init, Enabled, Apply, CanProceed, ProceedStep, Synchronizes, ServingOk, LinksOk, JobsOk, Go.EngineOk;
    Acted(env, states, actions, m, n, pid);
    ReachableOk(env, states, actions, m);
    ReachableOk(env, states, actions, n);
    ReachableOk(env, states, actions, n + 1);
    NotRefused(env, states[n + 1]);
    FetchDecides(env, states[m], pid, actions[m].step.outcome, states[m + 1]);
    SynchronizerServes(env, states[n], pid, actions[n].step.at);
    SynchronizeIs(states[n], pid, actions[n].step.at);
  }

  lemma SynchronizerServes(env: Env, s: System, pid: Id, at: Time)
    requires Inv(env, s) && CanProceed(env, s, pid, Synchronize(at))
    ensures pid in s.procs && s.procs[pid].scan in s.db.jobs
    ensures s.db.jobs[s.procs[pid].scan].owner == s.procs[pid].owner
    ensures s.procs[pid].pc.PollSynchronize? || s.procs[pid].pc.PollFail?
    ensures s.procs[pid].pc.PollSynchronize? && s.procs[pid].pc.answer.status == Store.Completed ==>
      s.procs[pid].pc.answer.result.Some?
    ensures ProceedStep(env, s, pid, Synchronize(at)) == SynchronizeStep(s, pid, at)
  {
    hide Inv, ServingOk, SynchronizeStep, RuleAdmits;
    ProceedIs(env, s, pid, Synchronize(at));
    MismatchNever(env, s, pid);
    PcOf(env, s, pid);
    ServingScan(env, s, s.procs[pid]);
    if s.procs[pid].pc.PollSynchronize? {
      AnswerFits(env, s, s.procs[pid]);
    }
  }

  lemma AnswerFits(env: Env, s: System, p: Proc)
    requires ServingOk(env, s, p) && p.pc.PollSynchronize?
    ensures p.pc.answer.status == Store.Completed ==> p.pc.answer.result.Some?
  {}
}
