// What a lease gives its holder: from the claim on, and for as long as the
// holder works under the token, the row stays queued under that token, unless
// somebody else has claimed it after the lease expired. So whatever the holder
// records before then is applied.
module ProtocolTenure {
  import opened Collections
  import opened ScanTasks
  import opened ScanRecords
  import opened DispatchProtocol
  import opened ProtocolInvariant
  import opened ProtocolSteps
  import opened ProtocolQuiet
  import opened ProtocolSync
  import opened ProtocolSafety
  import opened ProtocolPoll
  import opened ProtocolAnswers
  import opened ProtocolFirstLease
  import Go = GoEngine

  ghost predicate LeasedUntil(db: Database, scan: Id, token: Id, expiry: Time) {
    && scan in db.jobs && db.jobs[scan].status == QUEUED
    && db.jobs[scan].leaseToken == Some(token) && db.jobs[scan].leaseExpires == Some(expiry)
  }

  // The request works under the token.
  ghost predicate Works(s: System, pid: Id, scan: Id, token: Id) {
    pid in s.procs && s.procs[pid].scan == scan && Held(s.procs[pid].pc) == Some(token)
  }

  // -------------------------------------------------------- what a step does to a row

  ghost predicate RowKept(a: Database, b: Database, scan: Id) {
    && scan in a.jobs && scan in b.jobs && b.jobs[scan].status == a.jobs[scan].status
    && b.jobs[scan].leaseToken == a.jobs[scan].leaseToken && b.jobs[scan].leaseExpires == a.jobs[scan].leaseExpires
  }

  function Written(s: System, w: Write): Database {
    if w.Applied? then w.db else s.db
  }

  lemma SettleDb(s: System, pid: Id, w: Write, applied: Pc, skipped: Pc)
    requires pid in s.procs
    ensures Settle(s, pid, w, applied, skipped).db == Written(s, w)
  {}

  lemma PutTouchesOne(db: Database, id: Id, j: Job, event: Option<AuditEvent>)
    ensures var w := Put(db, id, j, event); w.Applied? ==> w.db.jobs == db.jobs[id := j]
  {
    hide RowChecks, ScannerIdUnique, EventAllowed;
  }

  lemma InsertKeeps(s: System, p: Proc, scan: Id)
    requires scan in s.db.jobs
    ensures RowKept(s.db, Written(s, InsertQueued(s.db, p.scan, p.owner, p.request, p.rule, p.since)), scan)
  {
    hide Put;
    var j := NewJob(p.owner, p.request, p.rule, p.since);
    PutTouchesOne(s.db, p.scan, j, Some(RequestedEvent(p.scan, j)));
  }

  lemma BlockKeeps(s: System, id: Id, owner: Subject, request: ScanRequest, code: FailureCode, matched: Option<Id>,
                   at: Time, scan: Id)
    requires scan in s.db.jobs
    ensures RowKept(s.db, Written(s, InsertBlocked(s.db, id, owner, request, code, matched, at)), scan)
  {
    hide Put;
    var j := BlockedJob(owner, request, code, matched, at);
    BlockedInsert(s.db, id, owner, request, code, matched, at);
  }

  lemma AttachKeeps(s: System, id: Id, rule: Id, token: Id, at: Time, scan: Id)
    requires scan in s.db.jobs
    ensures RowKept(s.db, Written(s, AttachAllowedTarget(s.db, id, rule, token, at)), scan)
  {
    hide Put;
    if id in s.db.jobs {
      PutTouchesOne(s.db, id, s.db.jobs[id].(allowedTarget := Some(rule), updatedAt := at), None);
    }
  }

  // The two writes of a dispatch change no row but the one held under their token.
  lemma RecordKeeps(s: System, id: Id, owner: Subject, token: Id, at: Time, scan: Id)
    requires scan in s.db.jobs && (id == scan ==> !HoldsLease(s.db, id, token))
    ensures forall g :: RowKept(s.db, Written(s, MarkDispatched(s.db, id, owner, g, token, at)), scan)
    ensures forall code, blocked ::
      RowKept(s.db, Written(s, MarkDispatchFailed(s.db, id, owner, code, blocked, token, at)), scan)
  {
    hide RowChecks, ScannerIdUnique, EventAllowed;
  }

  lemma SynchronizedKeeps(s: System, p: Proc, code: FailureCode, result: ScanResult, at: Time, scan: Id)
    requires scan in s.db.jobs && p.scan != scan
    ensures RowKept(s.db, Written(s, MarkSynchronizationFailed(s.db, p.scan, p.owner, code, at)), scan)
    ensures RowKept(s.db, Written(s, SynchronizeCompleted(s.db, p.scan, p.owner, result, at)), scan)
  {
    hide RowChecks, ScannerIdUnique, EventAllowed, InsertResults;
  }

  lemma ClaimKeeps(s: System, id: Id, token: Id, leaseSeconds: nat, at: Time, scan: Id)
    requires scan in s.db.jobs
    requires id == scan ==> s.db.jobs[scan].leaseExpires.Some? && at < s.db.jobs[scan].leaseExpires.value
    ensures RowKept(s.db, Written(s, ClaimDispatch(s.db, id, token, leaseSeconds, at)), scan)
  {
    hide RowChecks, ScannerIdUnique, EventAllowed;
  }

  // -------------------------------------------------------------- one step of anybody

  // The lease is still running, or somebody has claimed the row after it.
  ghost predicate StillLeased(s: System, t: System, scan: Id, token: Id, expiry: Time) {
    || LeasedUntil(t.db, scan, token, expiry)
    || (expiry <= s.clock && scan in t.claims && t.claims[scan] != [] && LastClaim(t, scan) != token)
  }

  lemma KeptIsLeased(s: System, t: System, scan: Id, token: Id, expiry: Time)
    requires LeasedUntil(s.db, scan, token, expiry) && RowKept(s.db, t.db, scan)
    ensures StillLeased(s, t, scan, token, expiry)
  {}

  lemma EventKeepsLease(s: System, event: Event, scan: Id, token: Id, expiry: Time)
    requires CanHappen(s, event) && LeasedUntil(s.db, scan, token, expiry)
    ensures StillLeased(s, HappenStep(s, event), scan, token, expiry)
  {
    hide InsertBlocked, HandleStep, Go.Start, Go.Finish, Go.Restart, StillLeased, CanHappen;
    match event
    case BlockAtAdmission(id, owner, request, code, matched, at) =>
      BlockKeeps(s, id, owner, request, code, matched, at, scan);
      KeptIsLeased(s, HappenStep(s, event), scan, token, expiry);
    case HandleCreate(k, verdict, scannerId) =>
      HandledMessage(s, event);
      HandleKeepsDb(s, k, verdict, scannerId);
      KeptIsLeased(s, HappenStep(s, event), scan, token, expiry);
    case _ => KeptIsLeased(s, HappenStep(s, event), scan, token, expiry);
  }

  lemma HandleKeepsDb(s: System, k: Id, verdict: Option<FailureCode>, scannerId: Id)
    requires k in s.sent
    ensures HandleStep(s, k, verdict, scannerId).db == s.db
  {
    hide Go.Receive;
  }

  lemma MoveKeepsDb(s: System, pid: Id, pc: Pc)
    requires pid in s.procs
    ensures Move(s, pid, pc).db == s.db
  {}

  lemma RespondKeepsDb(s: System, pid: Id, job: Job, results: map<Endpoint, PortState>, failed: bool)
    requires pid in s.procs
    ensures Respond(s, pid, job, results, failed).db == s.db
  {}

  lemma AnswerKeepsDb(s: System, pid: Id, job: Job)
    requires pid in s.procs
    ensures Answer(s, pid, job).db == s.db
  {
    hide Move, Respond;
    MoveKeepsDb(s, pid, PollResults(job));
    RespondKeepsDb(s, pid, job, map[], false);
  }

  lemma ArrivalKeepsDb(s: System, pid: Id, arrival: Arrival)
    requires CanArrive(s, pid, arrival)
    ensures ArriveStep(s, pid, arrival).db == s.db
  {
    hide Answer, Move;
    if arrival.Poll? {
      var u, job := Arriving(s, pid, arrival.polled), s.db.jobs[arrival.polled];
      AnswerKeepsDb(u, pid, job);
      MoveKeepsDb(u, pid, DispatchClaim);
      if job.scannerId.Some? {
        MoveKeepsDb(u, pid, PollFetch(job.scannerId.value, job));
      }
    }
  }

  predicate WritesRow(step: Step) {
    step == CommitAdmission || step.Claim? || step.Attach? || step.RecordDispatch? || step.RecordFailure?
    || step.Synchronize?
  }

  lemma QuietKeepsDb(env: Env, s: System, pid: Id, step: Step)
    requires CanProceed(env, s, pid, step) && !WritesRow(step)
    ensures ProceedStep(env, s, pid, step).db == s.db
  {
    hide CanProceed, ProceedStep;
    if IsEarly(step) {
      DispatchKeepsDb(env, s, pid, step);
    } else {
      PollKeepsDb(env, s, pid, step);
    }
  }

  lemma SendKeepsDb(env: Env, s: System, pid: Id)
    requires pid in s.procs
    ensures s.procs[pid].pc.DispatchSend? ==> SendStep(s, pid).db == s.db
    ensures Drop(Unlock(env, s, pid), pid).db == s.db
    ensures TakeLockStep(env, s, pid).db == s.db && CountStep(env, s, pid).db == s.db
  {
    hide ActiveOf;
  }

  lemma DispatchKeepsDb(env: Env, s: System, pid: Id, step: Step)
    requires CanProceed(env, s, pid, step) && !WritesRow(step) && IsEarly(step)
    ensures ProceedStep(env, s, pid, step).db == s.db
  {
    hide TakeLockStep, CountStep, ClaimStep, CommitStep, AttachStep, SendStep, RecordDispatchStep, RecordFailureStep,
      SynchronizeStep, ReloadStep, FetchStep, RefreshStep, Respond, Move, Drop, Unlock, RuleAdmits, AfterReply;
    SendKeepsDb(env, s, pid);
    var p := s.procs[pid];
    match step
    case Authorize(decision, at) =>
      if decision.Grant? {
        MoveKeepsDb(s, pid, DispatchAttach(p.pc.token, decision.rule, decision.pins));
      } else {
        MoveKeepsDb(s, pid, DispatchFail(p.pc.token, decision.code, true));
      }
    case ReceiveCreate => MoveKeepsDb(s, pid, AfterReply(p, p.pc.token, s.replies[p.pc.token]));
    case GiveUp => MoveKeepsDb(s, pid, DispatchReturned);
    case Misread => MoveKeepsDb(s, pid, DispatchFail(p.pc.token, InternalError, false));
    case _ =>
  }

  lemma PollKeepsDb(env: Env, s: System, pid: Id, step: Step)
    requires CanProceed(env, s, pid, step) && !WritesRow(step) && !IsEarly(step)
    ensures ProceedStep(env, s, pid, step).db == s.db
  {
    hide TakeLockStep, CountStep, ClaimStep, CommitStep, AuthorizeStep, AttachStep, SendStep, ReceiveStep,
      RecordDispatchStep, RecordFailureStep, SynchronizeStep, Move, Respond, Drop, Unlock, RuleAdmits, AfterFetch,
      ResultsOf, Answer;
    var p := s.procs[pid];
    match step
    case Reload =>
      var job := s.db.jobs[p.scan];
      AnswerKeepsDb(s, pid, job);
      if job.scannerId.Some? {
        MoveKeepsDb(s, pid, PollFetch(job.scannerId.value, job));
      }
    case Fetch(outcome) =>
      MoveKeepsDb(s, pid, AfterFetch(s, p.pc.scannerId, p.pc.job));
      MoveKeepsDb(s, pid, Ended);
      MoveKeepsDb(s, pid, PollFail(InternalError));
    case Refresh =>
      AnswerKeepsDb(s, pid, s.db.jobs[p.scan]);
      RespondKeepsDb(s, pid, s.db.jobs[p.scan], map[], true);
    case ReadResults => RespondKeepsDb(s, pid, p.pc.job, ResultsOf(s.db, p.scan), false);
  }

  lemma ClaimKeepsLease(env: Env, s: System, pid: Id, other: Id, at: Time, scan: Id, token: Id, expiry: Time)
    requires pid in s.procs && other !in s.tokens && token in s.tokens && at <= s.clock
    requires LeasedUntil(s.db, scan, token, expiry)
    ensures StillLeased(s, ClaimStep(env, s, pid, other, at), scan, token, expiry)
  {
    hide ClaimDispatch, Settle;
    var p, t := s.procs[pid], ClaimStep(env, s, pid, other, at);
    var w := ClaimDispatch(s.db, p.scan, other, env.leaseSeconds, at);
    var earlier := if p.scan in s.claims then s.claims[p.scan] else [];
    var u := s.(tokens := s.tokens[other := p.scan],
                claims := if w.Applied? then s.claims[p.scan := earlier + [other]] else s.claims);
    SettleDb(u, pid, w, DispatchAuthorize(other), DispatchReturned);
    SettleClaims(u, pid, w, DispatchAuthorize(other), DispatchReturned);
    if p.scan != scan || at < expiry {
      ClaimKeeps(s, p.scan, other, env.leaseSeconds, at, scan);
    } else if w.Applied? {
      assert LastClaim(t, scan) == other;
    }
  }

  lemma SettleClaims(s: System, pid: Id, w: Write, applied: Pc, skipped: Pc)
    requires pid in s.procs
    ensures Settle(s, pid, w, applied, skipped).claims == s.claims
  {}

  lemma CommitKeepsLease(env: Env, s: System, pid: Id, scan: Id, token: Id, expiry: Time)
    requires pid in s.procs && s.procs[pid].pc.AdmitCommit? && LeasedUntil(s.db, scan, token, expiry)
    ensures StillLeased(s, CommitStep(env, s, pid), scan, token, expiry)
  {
    hide InsertQueued, Settle, StillLeased;
    var p := s.procs[pid];
    InsertKeeps(s, p, scan);
    SettleDb(Unlock(env, s, pid), pid, InsertQueued(s.db, p.scan, p.owner, p.request, p.rule, p.since),
             DispatchClaim, Ended);
    KeptIsLeased(s, CommitStep(env, s, pid), scan, token, expiry);
  }

  lemma AttachKeepsLease(s: System, pid: Id, at: Time, scan: Id, token: Id, expiry: Time)
    requires pid in s.procs && s.procs[pid].pc.DispatchAttach? && LeasedUntil(s.db, scan, token, expiry)
    ensures StillLeased(s, AttachStep(s, pid, at), scan, token, expiry)
  {
    hide Put, Settle, StillLeased;
    var p := s.procs[pid];
    var w := AttachAllowedTarget(s.db, p.scan, p.pc.rule, p.pc.token, at);
    var failed := DispatchFail(p.pc.token, BlockedTarget, true);
    AttachKeeps(s, p.scan, p.pc.rule, p.pc.token, at, scan);
    if w.Applied? {
      var a := Attachment(p.pc.token, p.scan, p.pc.rule, s.db.rules[p.pc.rule], at, p.pc.pins);
      SettleDb(s.(attachments := s.attachments + {a}), pid, w, DispatchSend(a), failed);
    } else {
      SettleDb(s, pid, w, failed, failed);
    }
    KeptIsLeased(s, AttachStep(s, pid, at), scan, token, expiry);
  }

  // Nobody else holds the token, so nobody else can record under it.
  lemma OthersHoldOther(s: System, pid: Id, other: Id, scan: Id, token: Id)
    requires ProcsPhase(s) && Works(s, pid, scan, token) && other in s.procs && other != pid
    ensures Held(s.procs[other].pc) != Some(token)
  {
    hide PcPhase;
  }

  lemma RecordKeepsLease(s: System, pid: Id, at: Time, scan: Id, token: Id, expiry: Time)
    requires pid in s.procs && Held(s.procs[pid].pc) != Some(token) && LeasedUntil(s.db, scan, token, expiry)
    ensures s.procs[pid].pc.DispatchMark? ==> StillLeased(s, RecordDispatchStep(s, pid, at), scan, token, expiry)
    ensures s.procs[pid].pc.DispatchFail? ==> StillLeased(s, RecordFailureStep(s, pid, at), scan, token, expiry)
  {
    hide MarkDispatched, MarkDispatchFailed, Settle, StillLeased;
    var p := s.procs[pid];
    if p.pc.DispatchMark? {
      RecordKeeps(s, p.scan, p.owner, p.pc.token, at, scan);
      SettleDb(s, pid, MarkDispatched(s.db, p.scan, p.owner, p.pc.scannerId, p.pc.token, at),
               DispatchReturned, DispatchReturned);
      KeptIsLeased(s, RecordDispatchStep(s, pid, at), scan, token, expiry);
    }
    if p.pc.DispatchFail? {
      RecordKeeps(s, p.scan, p.owner, p.pc.token, at, scan);
      SettleDb(s, pid, MarkDispatchFailed(s.db, p.scan, p.owner, p.pc.code, p.pc.blocked, p.pc.token, at),
               DispatchReturned, DispatchReturned);
      KeptIsLeased(s, RecordFailureStep(s, pid, at), scan, token, expiry);
    }
  }

  // Only rows with a scanner id are synchronized, and a leased row has none.
  lemma SynchronizesElsewhere(env: Env, s: System, pid: Id, scan: Id, token: Id, expiry: Time)
    requires Inv(env, s) && pid in s.procs && LeasedUntil(s.db, scan, token, expiry)
    requires s.procs[pid].pc.PollSynchronize? || s.procs[pid].pc.PollFail? || s.procs[pid].pc == PollMismatch
    ensures s.procs[pid].scan != scan && s.procs[pid].pc != PollMismatch
  {
    hide Inv, ServingOk, HistoryOk, StoredOk, LinkOk;
    PcOf(env, s, pid);
    MismatchNever(env, s, pid);
    KnownRow(env, s, s.procs[pid]);
    RowIsOk(env, s, scan);
  }

  lemma SynchronizeKeepsLease(env: Env, s: System, pid: Id, at: Time, scan: Id, token: Id, expiry: Time)
    requires Inv(env, s) && pid in s.procs && LeasedUntil(s.db, scan, token, expiry)
    requires s.procs[pid].pc.PollSynchronize? || s.procs[pid].pc.PollFail? || s.procs[pid].pc == PollMismatch
    ensures StillLeased(s, SynchronizeStep(s, pid, at), scan, token, expiry)
  {
    hide Inv, MarkSynchronizationFailed, SynchronizeCompleted, Settle, StillLeased;
    SynchronizesElsewhere(env, s, pid, scan, token, expiry);
    var p := s.procs[pid];
    match p.pc {
      case PollSynchronize(scannerId, answer) =>
        var result := if answer.result.Some? then answer.result.value else ScanResult(p.request, [], 0);
        SynchronizedKeeps(s, p, ScannerFailed, result, at, scan);
        SettleDb(s, pid, SynchronizeWrite(s, p, answer, at), PollRefresh(false), PollRefresh(false));
      case PollFail(code) =>
        SynchronizedKeeps(s, p, code, ScanResult(p.request, [], 0), at, scan);
        SettleDb(s, pid, MarkSynchronizationFailed(s.db, p.scan, p.owner, code, at),
                 PollRefresh(true), PollRefresh(true));
    }
    KeptIsLeased(s, SynchronizeStep(s, pid, at), scan, token, expiry);
  }

  // The request keeps its scan, and its token or gives it up; a token is taken
  // only by a claim.
  ghost predicate Keeping(s: System, t: System, pid: Id, claimed: Option<Id>) {
    && pid in s.procs
    && (pid in t.procs ==>
          && t.procs[pid].scan == s.procs[pid].scan
          && (Held(t.procs[pid].pc).Some? ==>
                Held(t.procs[pid].pc) == Held(s.procs[pid].pc) || Held(t.procs[pid].pc) == claimed))
  }

  predicate MayHold(s: System, pid: Id, claimed: Option<Id>, pc: Pc)
    requires pid in s.procs
  {
    Held(pc).Some? ==> Held(pc) == Held(s.procs[pid].pc) || Held(pc) == claimed
  }

  lemma MoveIsKeeping(s: System, pid: Id, pc: Pc)
    requires pid in s.procs && MayHold(s, pid, None, pc)
    ensures Keeping(s, Move(s, pid, pc), pid, None)
  {
    hide Held;
  }

  lemma SettleIsKeeping(s: System, pid: Id, w: Write, applied: Pc, skipped: Pc, claimed: Option<Id>)
    requires pid in s.procs && MayHold(s, pid, claimed, applied) && MayHold(s, pid, claimed, skipped)
    ensures Keeping(s, Settle(s, pid, w, applied, skipped), pid, claimed)
  {
    hide Held;
  }

  lemma ElsewhereKeeping(s: System, u: System, t: System, pid: Id, claimed: Option<Id>)
    requires u.procs == s.procs && Keeping(u, t, pid, claimed)
    ensures Keeping(s, t, pid, claimed)
  {}

  lemma AnswerIsKeeping(s: System, pid: Id, job: Job)
    requires pid in s.procs
    ensures Keeping(s, Answer(s, pid, job), pid, None)
  {
    hide Respond, Move, Keeping, Mine;
    MoveIsKeeping(s, pid, PollResults(job));
    RespondIsMine(s, pid, job, map[], false);
    GoneIsKeeping(s, Respond(s, pid, job, map[], false), pid);
  }

  lemma GoneIsKeeping(s: System, t: System, pid: Id)
    requires pid in s.procs
    ensures pid !in t.procs ==> Keeping(s, t, pid, None)
  {}

  lemma ClaimIsKeeping(env: Env, s: System, pid: Id, token: Id, at: Time)
    requires pid in s.procs
    ensures Keeping(s, ClaimStep(env, s, pid, token, at), pid, Some(token))
  {
    hide Settle, ClaimDispatch, Keeping;
    var scan := s.procs[pid].scan;
    var w := ClaimDispatch(s.db, scan, token, env.leaseSeconds, at);
    var earlier := if scan in s.claims then s.claims[scan] else [];
    var u := s.(tokens := s.tokens[token := scan],
                claims := if w.Applied? then s.claims[scan := earlier + [token]] else s.claims);
    SettleIsKeeping(u, pid, w, DispatchAuthorize(token), DispatchReturned, Some(token));
    ElsewhereKeeping(s, u, ClaimStep(env, s, pid, token, at), pid, Some(token));
  }

  lemma CommitIsKeeping(env: Env, s: System, pid: Id)
    requires pid in s.procs && s.procs[pid].pc.AdmitCommit?
    ensures Keeping(s, CommitStep(env, s, pid), pid, None)
  {
    hide Settle, InsertQueued, Unlock, Keeping;
    var p, u := s.procs[pid], Unlock(env, s, pid);
    FreedIs(env, s, pid);
    if p.pc.admitted {
      SettleIsKeeping(u, pid, InsertQueued(s.db, p.scan, p.owner, p.request, p.rule, p.since), DispatchClaim, Ended,
                      None);
      ElsewhereKeeping(s, u, CommitStep(env, s, pid), pid, None);
    } else {
      GoneIsKeeping(s, CommitStep(env, s, pid), pid);
    }
  }

  lemma AttachIsKeeping(s: System, pid: Id, at: Time)
    requires pid in s.procs && s.procs[pid].pc.DispatchAttach?
    ensures Keeping(s, AttachStep(s, pid, at), pid, None)
  {
    hide Settle, Keeping, Put;
    var p := s.procs[pid];
    var w := AttachAllowedTarget(s.db, p.scan, p.pc.rule, p.pc.token, at);
    var failed := DispatchFail(p.pc.token, BlockedTarget, true);
    if w.Applied? {
      var a := Attachment(p.pc.token, p.scan, p.pc.rule, s.db.rules[p.pc.rule], at, p.pc.pins);
      var u := s.(attachments := s.attachments + {a});
      SettleIsKeeping(u, pid, w, DispatchSend(a), failed, None);
      ElsewhereKeeping(s, u, AttachStep(s, pid, at), pid, None);
    } else {
      SettleIsKeeping(s, pid, w, failed, failed, None);
    }
  }

  lemma SendIsKeeping(s: System, pid: Id)
    requires pid in s.procs && s.procs[pid].pc.DispatchSend?
    ensures Keeping(s, SendStep(s, pid), pid, None)
  {}

  lemma AuthorizeIsKeeping(s: System, pid: Id, decision: Decision)
    requires pid in s.procs && s.procs[pid].pc.DispatchAuthorize?
    ensures Keeping(s, AuthorizeStep(s, pid, decision), pid, None)
  {}

  lemma ReceiveIsKeeping(s: System, pid: Id)
    requires pid in s.procs && s.procs[pid].pc.DispatchAwait? && s.procs[pid].pc.token in s.replies
    ensures Keeping(s, ReceiveStep(s, pid), pid, None)
  {
    hide Move, Keeping;
    var token := s.procs[pid].pc.token;
    MoveIsKeeping(s, pid, AfterReply(s.procs[pid], token, s.replies[token]));
  }

  lemma RecordIsKeeping(s: System, pid: Id, at: Time)
    requires pid in s.procs
    ensures s.procs[pid].pc.DispatchMark? ==> Keeping(s, RecordDispatchStep(s, pid, at), pid, None)
    ensures s.procs[pid].pc.DispatchFail? ==> Keeping(s, RecordFailureStep(s, pid, at), pid, None)
  {
    hide Settle, Keeping, MarkDispatched, MarkDispatchFailed;
    var p := s.procs[pid];
    if p.pc.DispatchMark? {
      SettleIsKeeping(s, pid, MarkDispatched(s.db, p.scan, p.owner, p.pc.scannerId, p.pc.token, at),
                      DispatchReturned, DispatchReturned, None);
    }
    if p.pc.DispatchFail? {
      SettleIsKeeping(s, pid, MarkDispatchFailed(s.db, p.scan, p.owner, p.pc.code, p.pc.blocked, p.pc.token, at),
                      DispatchReturned, DispatchReturned, None);
    }
  }

  lemma AdmitIsKeeping(env: Env, s: System, pid: Id)
    requires pid in s.procs
    ensures Keeping(s, TakeLockStep(env, s, pid), pid, None) && Keeping(s, CountStep(env, s, pid), pid, None)
    ensures Keeping(s, s.(procs := s.procs[pid := s.procs[pid].(pc := AdmitCommit(true))]), pid, None)
  {
    hide ActiveOf;
  }

  lemma SynchronizeIsKeeping(s: System, pid: Id, at: Time)
    requires pid in s.procs
    requires s.procs[pid].pc.PollSynchronize? || s.procs[pid].pc.PollFail? || s.procs[pid].pc == PollMismatch
    ensures Keeping(s, SynchronizeStep(s, pid, at), pid, None)
  {
    hide Settle, SynchronizeWrite, MarkSynchronizationFailed, Keeping;
    var p := s.procs[pid];
    match p.pc {
      case PollSynchronize(scannerId, answer) =>
        SettleIsKeeping(s, pid, SynchronizeWrite(s, p, answer, at), PollRefresh(false), PollRefresh(false), None);
      case PollFail(code) =>
        SettleIsKeeping(s, pid, MarkSynchronizationFailed(s.db, p.scan, p.owner, code, at),
                        PollRefresh(true), PollRefresh(true), None);
      case _ =>
        SettleIsKeeping(s, pid, MarkSynchronizationFailed(s.db, p.scan, p.owner, InternalError, at), Ended, Ended,
                        None);
    }
  }

  function TokenTaken(step: Step): Option<Id> {
    if step.Claim? then Some(step.token) else None
  }

  lemma EarlyIsKeeping(env: Env, s: System, pid: Id, step: Step)
    requires CanProceed(env, s, pid, step) && IsEarly(step)
    ensures Keeping(s, ProceedStep(env, s, pid, step), pid, TokenTaken(step))
  {
    hide Keeping, TakeLockStep, CountStep, ClaimStep, CommitStep, AttachStep, SendStep, AuthorizeStep, ReceiveStep,
      RecordDispatchStep, RecordFailureStep, ReloadStep, FetchStep, SynchronizeStep, RefreshStep, Respond, Move, Drop,
      Unlock, RuleAdmits;
    match step
    case TakeLock => AdmitIsKeeping(env, s, pid);
    case CountActive => AdmitIsKeeping(env, s, pid);
    case InsertRow => AdmitIsKeeping(env, s, pid);
    case CommitAdmission => CommitIsKeeping(env, s, pid);
    case Claim(token, at) => ClaimIsKeeping(env, s, pid, token, at);
    case Authorize(decision, at) => AuthorizeIsKeeping(s, pid, decision);
    case Attach(at) => AttachIsKeeping(s, pid, at);
    case SendCreate => SendIsKeeping(s, pid);
    case ReceiveCreate => ReceiveIsKeeping(s, pid);
    case GiveUp => MoveIsKeeping(s, pid, DispatchReturned);
    case Misread => MoveIsKeeping(s, pid, DispatchFail(s.procs[pid].pc.token, InternalError, false));
    case RecordDispatch(at) => RecordIsKeeping(s, pid, at);
    case RecordFailure(at) => RecordIsKeeping(s, pid, at);
    case Stop =>
      StopEnds(env, s, pid);
      GoneIsKeeping(s, Drop(Unlock(env, s, pid), pid), pid);
  }

  lemma LateIsKeeping(env: Env, s: System, pid: Id, step: Step)
    requires CanProceed(env, s, pid, step) && !IsEarly(step)
    ensures Keeping(s, ProceedStep(env, s, pid, step), pid, None)
  {
    hide Keeping, TakeLockStep, CountStep, ClaimStep, CommitStep, AttachStep, SendStep, AuthorizeStep, ReceiveStep,
      RecordDispatchStep, RecordFailureStep, SynchronizeStep, Respond, Move, Drop, Unlock, RuleAdmits, Answer,
      ResultsOf, Mine;
    var p := s.procs[pid];
    match step
    case Reload =>
      AnswerIsKeeping(s, pid, s.db.jobs[p.scan]);
      if s.db.jobs[p.scan].scannerId.Some? {
        MoveIsKeeping(s, pid, PollFetch(s.db.jobs[p.scan].scannerId.value, s.db.jobs[p.scan]));
      }
    case Fetch(outcome) =>
      MoveIsKeeping(s, pid, AfterFetch(s, p.pc.scannerId, p.pc.job));
      MoveIsKeeping(s, pid, Ended);
      MoveIsKeeping(s, pid, PollFail(InternalError));
    case Synchronize(at) => SynchronizeIsKeeping(s, pid, at);
    case Refresh =>
      AnswerIsKeeping(s, pid, s.db.jobs[p.scan]);
      RespondIsMine(s, pid, s.db.jobs[p.scan], map[], true);
      GoneIsKeeping(s, Respond(s, pid, s.db.jobs[p.scan], map[], true), pid);
    case ReadResults =>
      RespondIsMine(s, pid, p.pc.job, ResultsOf(s.db, p.scan), false);
      GoneIsKeeping(s, Respond(s, pid, p.pc.job, ResultsOf(s.db, p.scan), false), pid);
  }

  lemma StepIsKeeping(env: Env, s: System, pid: Id, step: Step)
    requires CanProceed(env, s, pid, step)
    ensures Keeping(s, ProceedStep(env, s, pid, step), pid, TokenTaken(step))
  {
    hide Keeping, CanProceed, ProceedStep;
    if IsEarly(step) {
      EarlyIsKeeping(env, s, pid, step);
    } else {
      LateIsKeeping(env, s, pid, step);
    }
  }

  // -------------------------------------------------------------------- the step

  lemma OthersKeepLease(env: Env, s: System, pid: Id, q: Id, step: Step, scan: Id, token: Id, expiry: Time)
    requires Inv(env, s) && ProcsPhase(s) && token in s.tokens && CanProceed(env, s, q, step)
    requires Works(s, pid, scan, token) && LeasedUntil(s.db, scan, token, expiry)
    requires q == pid ==> !step.RecordDispatch? && !step.RecordFailure?
    ensures StillLeased(s, ProceedStep(env, s, q, step), scan, token, expiry)
  {
    hide Inv, ProcsPhase, StillLeased, CanProceed, ProceedStep, LeasedUntil;
    if WritesRow(step) {
      WriteKeepsLease(env, s, pid, q, step, scan, token, expiry);
    } else {
      QuietKeepsDb(env, s, q, step);
      LeasedKept(s, ProceedStep(env, s, q, step), scan, token, expiry);
    }
  }

  lemma LeasedKept(s: System, t: System, scan: Id, token: Id, expiry: Time)
    requires LeasedUntil(s.db, scan, token, expiry) && t.db == s.db
    ensures StillLeased(s, t, scan, token, expiry)
  {}

  lemma WriteKeepsLease(env: Env, s: System, pid: Id, q: Id, step: Step, scan: Id, token: Id, expiry: Time)
    requires Inv(env, s) && ProcsPhase(s) && token in s.tokens && CanProceed(env, s, q, step) && WritesRow(step)
    requires Works(s, pid, scan, token) && LeasedUntil(s.db, scan, token, expiry)
    requires q == pid ==> !step.RecordDispatch? && !step.RecordFailure?
    ensures StillLeased(s, ProceedStep(env, s, q, step), scan, token, expiry)
  {
    hide Inv, ProcsPhase, StillLeased, LeasedUntil, TakeLockStep, CountStep, ClaimStep, CommitStep, AuthorizeStep,
      AttachStep, SendStep, ReceiveStep, RecordDispatchStep, RecordFailureStep, ReloadStep, FetchStep, SynchronizeStep,
      RefreshStep, Respond, Move, Drop, Unlock, RuleAdmits, Held;
    match step
    case CommitAdmission => CommitKeepsLease(env, s, q, scan, token, expiry);
    case Claim(other, at) => ClaimKeepsLease(env, s, q, other, at, scan, token, expiry);
    case Attach(at) => AttachKeepsLease(s, q, at, scan, token, expiry);
    case RecordDispatch(at) =>
      OthersHoldOther(s, pid, q, scan, token);
      RecordKeepsLease(s, q, at, scan, token, expiry);
    case RecordFailure(at) =>
      OthersHoldOther(s, pid, q, scan, token);
      RecordKeepsLease(s, q, at, scan, token, expiry);
    case Synchronize(at) => SynchronizeKeepsLease(env, s, q, at, scan, token, expiry);
  }

  // A record ends the work under the token.
  lemma RecordEndsWork(env: Env, s: System, pid: Id, step: Step)
    requires CanProceed(env, s, pid, step) && (step.RecordDispatch? || step.RecordFailure?)
    ensures var t := ProceedStep(env, s, pid, step); pid in t.procs ==> t.procs[pid].pc == DispatchReturned
  {
    hide TakeLockStep, CountStep, ClaimStep, CommitStep, AuthorizeStep, AttachStep, SendStep, ReceiveStep, ReloadStep,
      FetchStep, SynchronizeStep, RefreshStep, Respond, Move, Drop, Unlock, RuleAdmits, Settle, Mine, MarkDispatched,
      MarkDispatchFailed;
    var p := s.procs[pid];
    if step.RecordDispatch? {
      SettleIsMine(s, pid, MarkDispatched(s.db, p.scan, p.owner, p.pc.scannerId, p.pc.token, step.at),
                   DispatchReturned, DispatchReturned);
    } else {
      SettleIsMine(s, pid, MarkDispatchFailed(s.db, p.scan, p.owner, p.pc.code, p.pc.blocked, p.pc.token, step.at),
                   DispatchReturned, DispatchReturned);
    }
  }

  // While the request goes on working, its lease goes on, or the row is claimed
  // by somebody else after it.
  lemma StepKeepsLease(env: Env, s: System, a: Action, pid: Id, scan: Id, token: Id, expiry: Time)
    requires Inv(env, s) && Phases(s) && token in s.tokens && Enabled(env, s, a)
    requires Works(s, pid, scan, token) && LeasedUntil(s.db, scan, token, expiry)
    requires Works(Apply(env, s, a), pid, scan, token)
    ensures StillLeased(s, Apply(env, s, a), scan, token, expiry)
  {
    hide Inv, MessagesPhase, BlockedPhase, ProcsPhase, StillLeased, LeasedUntil, CanArrive, CanHappen, CanProceed,
      ProceedStep, HappenStep, ArriveStep;
    match a
    case Arrive(q, arrival) =>
      ArrivalKeepsDb(s, q, arrival);
      LeasedKept(s, ArriveStep(s, q, arrival), scan, token, expiry);
    case Happen(event) => EventKeepsLease(s, event, scan, token, expiry);
    case Proceed(q, step) =>
      if q == pid && (step.RecordDispatch? || step.RecordFailure?) {
        RecordEndsWork(env, s, pid, step);
      } else {
        OthersKeepLease(env, s, pid, q, step, scan, token, expiry);
      }
  }

  // Whoever works under an old token worked under it before.
  lemma WorkersStay(env: Env, s: System, a: Action, pid: Id, token: Id)
    requires Enabled(env, s, a) && token in s.tokens
    requires pid in Apply(env, s, a).procs && Held(Apply(env, s, a).procs[pid].pc) == Some(token)
    ensures pid in s.procs && Held(s.procs[pid].pc) == Some(token)
    ensures s.procs[pid].scan == Apply(env, s, a).procs[pid].scan
  {
    hide Held, CanArrive, CanHappen, CanProceed, ProceedStep, HappenStep, ArriveStep;
    if !Acts(a, pid) {
      Untouched(env, s, a, pid);
    } else if a.Proceed? {
      StepIsKeeping(env, s, pid, a.step);
      ClaimedTokensAreNew(env, s, pid, a.step);
    } else {
      ArrivalsHoldNothing(s, pid, a.arrival);
    }
  }

  lemma ClaimedTokensAreNew(env: Env, s: System, pid: Id, step: Step)
    requires CanProceed(env, s, pid, step)
    ensures pid in s.procs && (step.Claim? ==> step.token !in s.tokens)
  {
    hide RuleAdmits;
  }

  lemma ArrivalsHoldNothing(s: System, pid: Id, arrival: Arrival)
    requires CanArrive(s, pid, arrival)
    ensures var t := ArriveStep(s, pid, arrival); pid in t.procs ==> Held(t.procs[pid].pc).None?
  {
    hide Answer, Move, Mine, Keeping;
    if arrival.Poll? {
      var u, job := Arriving(s, pid, arrival.polled), s.db.jobs[arrival.polled];
      AnswerHoldsNothing(u, pid, job);
      MoveIsMine(u, pid, DispatchClaim);
      if job.scannerId.Some? {
        MoveIsMine(u, pid, PollFetch(job.scannerId.value, job));
      }
    }
  }

  lemma AnswerHoldsNothing(s: System, pid: Id, job: Job)
    requires pid in s.procs
    ensures var t := Answer(s, pid, job); pid in t.procs ==> Held(t.procs[pid].pc).None?
  {
    hide Move, Respond, Mine;
    MoveIsMine(s, pid, PollResults(job));
    RespondIsMine(s, pid, job, map[], false);
  }

  // ------------------------------------------------------------------ executions

  // The request claims the scan under the token, and the claim is applied.
  ghost predicate ClaimedAt(env: Env, states: seq<System>, actions: seq<Action>, i: nat, pid: Id, scan: Id, token: Id) {
    && i < |actions| && |states| == |actions| + 1
    && actions[i].Proceed? && actions[i].pid == pid && actions[i].step.Claim? && actions[i].step.token == token
    && pid in states[i].procs && states[i].procs[pid].scan == scan
    && ClaimDispatch(states[i].db, scan, token, env.leaseSeconds, actions[i].step.at).Applied?
  }

  function Expiry(env: Env, a: Action): Time
    requires a.Proceed? && a.step.Claim?
  {
    a.step.at + env.leaseSeconds
  }

  // The lease that was claimed is running.
  ghost predicate LeaseRuns(env: Env, s: System, claim: Action, scan: Id)
    requires claim.Proceed? && claim.step.Claim?
  {
    LeasedUntil(s.db, scan, claim.step.token, Expiry(env, claim))
  }

  lemma ClaimStarts(env: Env, s: System, pid: Id, token: Id, at: Time)
    requires CanProceed(env, s, pid, Claim(token, at))
    requires ClaimDispatch(s.db, s.procs[pid].scan, token, env.leaseSeconds, at).Applied?
    ensures var scan, t := s.procs[pid].scan, ProceedStep(env, s, pid, Claim(token, at));
      && LeasedUntil(t.db, scan, token, at + env.leaseSeconds) && token in t.tokens
      && scan in t.claims && t.claims[scan] != [] && LastClaim(t, scan) == token
      && Works(t, pid, scan, token)
  {
    hide RowChecks, ScannerIdUnique, RuleAdmits;
    assert ProceedStep(env, s, pid, Claim(token, at)) == ClaimStep(env, s, pid, token, at);
  }

  // The claims of a scan only grow, and no token claims twice: its claim is the
  // last one until the first later claim, and never again.
  lemma LastUntilTheNext(s: System, t: System, scan: Id, token: Id)
    requires RecordsGrow(s, t) && ClaimsOk(t) && scan in s.claims && s.claims[scan] != [] && LastClaim(s, scan) == token
    ensures scan in t.claims && t.claims[scan] != []
    ensures LastClaim(t, scan) == token <==> |t.claims[scan]| == |s.claims[scan]|
  {
    var k := |s.claims[scan]| - 1;
    assert s.claims[scan] <= t.claims[scan];
    assert t.claims[scan][k] == token;
  }

  lemma ClaimTaken(env: Env, states: seq<System>, actions: seq<Action>, i: nat, pid: Id, scan: Id, token: Id)
    requires Execution(env, states, actions) && ClaimedAt(env, states, actions, i, pid, scan, token)
    ensures var t := states[i + 1];
      && LeaseRuns(env, t, actions[i], scan) && token in t.tokens && Works(t, pid, scan, token)
      && scan in t.claims && t.claims[scan] != [] && LastClaim(t, scan) == token
  {
    hide CanProceed, ProceedStep, ClaimDispatch, Works, LeasedUntil;
    assert Enabled(env, states[i], actions[i]) && states[i + 1] == Apply(env, states[i], actions[i]);
    ClaimStarts(env, states[i], pid, token, actions[i].step.at);
  }

  // The row is claimed by somebody else, and not before the lease expired.
  ghost predicate Reclaimed(s: System, scan: Id, token: Id, expiry: Time) {
    expiry <= s.clock && scan in s.claims && s.claims[scan] != [] && LastClaim(s, scan) != token
  }

  lemma {:induction false} WorkingSince(env: Env, states: seq<System>, actions: seq<Action>, i: nat, n: nat, pid: Id,
                                        scan: Id, token: Id)
    requires Execution(env, states, actions) && Init(env, states[0]) && i < n <= |actions|
    requires ClaimedAt(env, states, actions, i, pid, scan, token)
    requires pid in states[n].procs && Held(states[n].procs[pid].pc) == Some(token)
    ensures Works(states[n], pid, scan, token)
    ensures LeaseRuns(env, states[n], actions[i], scan) || Reclaimed(states[n], scan, token, Expiry(env, actions[i]))
    decreases n
  {
    hide Inv, Init, Phases, Enabled, Apply, ClaimDispatch, Held, LeasedUntil, RowsEvolve, ClaimsOk;
    ClaimTaken(env, states, actions, i, pid, scan, token);
    if n > i + 1 {
      var s, t, a := states[n - 1], states[n], actions[n - 1];
      assert Enabled(env, s, a) && t == Apply(env, s, a);
      ReachableEvolves(env, states, actions, i + 1, n - 1);
      WorkersStay(env, s, a, pid, token);
      WorkingSince(env, states, actions, i, n - 1, pid, scan, token);
      ReachableOk(env, states, actions, n - 1);
      ReachablePhases(env, states, actions, n - 1);
      StepPreserves(env, s, a);
      if LeaseRuns(env, s, actions[i], scan) {
        StepKeepsLease(env, s, a, pid, scan, token, Expiry(env, actions[i]));
      } else {
        StaysReclaimed(env, states, actions, i, n, pid, scan, token);
      }
    }
  }

  lemma StaysReclaimed(env: Env, states: seq<System>, actions: seq<Action>, i: nat, n: nat, pid: Id, scan: Id,
                       token: Id)
    requires Execution(env, states, actions) && Init(env, states[0]) && i + 1 < n <= |actions|
    requires ClaimedAt(env, states, actions, i, pid, scan, token)
    requires Reclaimed(states[n - 1], scan, token, Expiry(env, actions[i]))
    ensures Reclaimed(states[n], scan, token, Expiry(env, actions[i]))
  {
    hide Inv, Init, Enabled, Apply, ClaimedAt, RowsEvolve, ClaimsOk, StrayOk, ResponsesOk;
    ClaimTaken(env, states, actions, i, pid, scan, token);
    ReachableEvolves(env, states, actions, i + 1, n - 1);
    ReachableEvolves(env, states, actions, i + 1, n);
    ReachableEvolves(env, states, actions, n - 1, n);
    ReachableOk(env, states, actions, n - 1);
    ReachableOk(env, states, actions, n);
    StrayOf(env, states[n - 1]);
    StrayOf(env, states[n]);
    LastUntilTheNext(states[i + 1], states[n - 1], scan, token);
    LastUntilTheNext(states[i + 1], states[n], scan, token);
    assert states[n - 1].claims[scan] <= states[n].claims[scan];
  }

  // --------------------------------------------------------------- main results

  // At any later moment at which the claimant still works under its token and
  // has not recorded anything, whatever else runs: its lease is in force, with
  // its expiry date, exactly while nobody else has claimed the row; and nobody
  // has before that date.
  lemma HoldersKeepTheirLease(env: Env, states: seq<System>, actions: seq<Action>, i: nat, n: nat, pid: Id, scan: Id,
                              token: Id)
    requires Execution(env, states, actions) && Init(env, states[0]) && i < n <= |actions|
    requires ClaimedAt(env, states, actions, i, pid, scan, token)
    requires pid in states[n].procs && Held(states[n].procs[pid].pc) == Some(token)
    ensures states[n].procs[pid].scan == scan && scan in states[n].claims && states[n].claims[scan] != []
    ensures LeaseRuns(env, states[n], actions[i], scan) <==> LastClaim(states[n], scan) == token
    ensures states[n].clock < actions[i].step.at + env.leaseSeconds ==>
      && scan in states[n].db.jobs && states[n].db.jobs[scan].status == QUEUED
      && states[n].db.jobs[scan].leaseToken == Some(token)
      && states[n].db.jobs[scan].leaseExpires == Some(actions[i].step.at + env.leaseSeconds)
  {
    hide Inv, Init, Enabled, Apply, ClaimDispatch, Held, HistoryOk, StoredOk, RowOk;
    WorkingSince(env, states, actions, i, n, pid, scan, token);
    if LeaseRuns(env, states[n], actions[i], scan) {
      ReachableOk(env, states, actions, n);
      RowIsOk(env, states[n], scan);
    }
  }

  // What the step that records a dispatch's outcome leaves in the row.
  ghost predicate Recorded(p: Proc, j: Job) {
    match p.pc
    case DispatchMark(_, scannerId) => j.status == RUNNING && j.scannerId == Some(scannerId)
    case DispatchFail(_, code, blocked) =>
      j.status == (if blocked then BLOCKED else FAILED) && j.failure == Some(code) && j.scannerId.None?
    case _ => false
  }

  // So what the claimant records is applied exactly while nobody else has
  // claimed the row, hence always before its lease expires; and the row then
  // leaves the queue for good.
  lemma RecordsAreApplied(env: Env, states: seq<System>, actions: seq<Action>, i: nat, n: nat, pid: Id, scan: Id,
                          token: Id)
    requires Execution(env, states, actions) && Init(env, states[0]) && i < n < |actions|
    requires ClaimedAt(env, states, actions, i, pid, scan, token)
    requires pid in states[n].procs && Held(states[n].procs[pid].pc) == Some(token)
    requires actions[n].Proceed? && actions[n].pid == pid
    requires actions[n].step.RecordDispatch? || actions[n].step.RecordFailure?
    ensures scan in states[n].claims && states[n].claims[scan] != []
    ensures if LastClaim(states[n], scan) == token
            then scan in states[n + 1].db.jobs && Recorded(states[n].procs[pid], states[n + 1].db.jobs[scan])
            else states[n + 1].db == states[n].db
    ensures states[n].clock < actions[i].step.at + env.leaseSeconds ==> LastClaim(states[n], scan) == token
    ensures states[n].clock < actions[i].step.at + env.leaseSeconds ==>
      scan in states[n + 1].db.jobs && states[n + 1].db.jobs[scan].status in {RUNNING, FAILED, BLOCKED}
  {
    hide Inv, Init, Enabled, Apply, ClaimDispatch, Held, Recorded, LinkOk, HistoryOk, StoredOk, RowOk;
    HoldersKeepTheirLease(env, states, actions, i, n, pid, scan, token);
    ReachableOk(env, states, actions, n);
    ReachableOk(env, states, actions, n + 1);
    NotRefused(env, states[n + 1]);
    assert Enabled(env, states[n], actions[n]) && states[n + 1] == Apply(env, states[n], actions[n]);
    RecordWrites(env, states[n], pid, actions[n].step, token);
    if HoldsLease(states[n].db, scan, token) {
      LeaseIsLastClaim(env, states[n], scan, token);
      RecordedHasLeft(states[n].procs[pid], states[n + 1].db.jobs[scan]);
    }
  }

  lemma RecordedHasLeft(p: Proc, j: Job)
    requires Recorded(p, j)
    ensures j.status in {RUNNING, FAILED, BLOCKED}
  {}

  lemma LeaseIsLastClaim(env: Env, s: System, scan: Id, token: Id)
    requires Inv(env, s) && HoldsLease(s.db, scan, token)
    ensures scan in s.claims && s.claims[scan] != [] && LastClaim(s, scan) == token
  {
    hide Inv, RowOk, HistoryOk, StoredOk;
    RowIsOk(env, s, scan);
  }

  lemma RecordWrites(env: Env, s: System, pid: Id, step: Step, token: Id)
    requires Inv(env, s) && Enabled(env, s, Proceed(pid, step)) && pid in s.procs
    requires step.RecordDispatch? || step.RecordFailure?
    requires Held(s.procs[pid].pc) == Some(token) && !Apply(env, s, Proceed(pid, step)).refused
    ensures var scan, t := s.procs[pid].scan, Apply(env, s, Proceed(pid, step));
      if HoldsLease(s.db, scan, token)
      then scan in t.db.jobs && Recorded(s.procs[pid], t.db.jobs[scan])
      else t.db == s.db
  {
    hide Inv, RowChecks, HistoryOk, StoredOk, LinkOk, CanProceed, ProceedStep;
    var scan := s.procs[pid].scan;
    RecordStepIs(env, s, pid, step);
    if HoldsLease(s.db, scan, token) {
      RowIsOk(env, s, scan);
      QueuedHasNoScanner(s.db.jobs[scan]);
    }
    if step.RecordDispatch? {
      DispatchRecords(s, pid, step.at, token);
    } else {
      FailureRecords(s, pid, step.at, token);
    }
  }

  lemma QueuedHasNoScanner(j: Job)
    requires RowChecks(j) && j.status == QUEUED && (j.startedAt.Some? <==> j.scannerId.Some?)
    ensures j.scannerId.None?
  {}

  lemma RecordStepIs(env: Env, s: System, pid: Id, step: Step)
    requires CanProceed(env, s, pid, step) && (step.RecordDispatch? || step.RecordFailure?)
    ensures pid in s.procs
    ensures step.RecordDispatch? ==>
      s.procs[pid].pc.DispatchMark? && ProceedStep(env, s, pid, step) == RecordDispatchStep(s, pid, step.at)
    ensures step.RecordFailure? ==>
      s.procs[pid].pc.DispatchFail? && ProceedStep(env, s, pid, step) == RecordFailureStep(s, pid, step.at)
  {
    hide TakeLockStep, CountStep, ClaimStep, CommitStep, AuthorizeStep, AttachStep, SendStep, ReceiveStep, ReloadStep,
      FetchStep, SynchronizeStep, RefreshStep, Respond, Move, Drop, Unlock, RuleAdmits, Settle, RecordDispatchStep,
      RecordFailureStep;
  }

  lemma RefusalIsNoted(s: System, pid: Id, w: Write, next: Pc)
    requires pid in s.procs && w.Refused?
    ensures Settle(s, pid, w, next, next).refused
  {}

  // A row write is applied or refused, and a refusal is noted.
  lemma PutSettles(s: System, pid: Id, id: Id, j: Job, event: Option<AuditEvent>, next: Pc)
    requires pid in s.procs
    ensures var t := Settle(s, pid, Put(s.db, id, j, event), next, next);
      t.refused || (id in t.db.jobs && t.db.jobs[id] == j)
  {
    hide RowChecks, ScannerIdUnique, EventAllowed, Settle;
    var w := Put(s.db, id, j, event);
    SettleDb(s, pid, w, next, next);
    PutTouchesOne(s.db, id, j, event);
    if w.Refused? {
      RefusalIsNoted(s, pid, w, next);
    }
  }

  lemma DispatchRecords(s: System, pid: Id, at: Time, token: Id)
    requires pid in s.procs && s.procs[pid].pc.DispatchMark? && s.procs[pid].pc.token == token
    requires !RecordDispatchStep(s, pid, at).refused
    ensures var scan, t := s.procs[pid].scan, RecordDispatchStep(s, pid, at);
      if HoldsLease(s.db, scan, token)
      then scan in t.db.jobs && Recorded(s.procs[pid], t.db.jobs[scan])
      else t.db == s.db
  {
    hide Put, Settle;
    var p := s.procs[pid];
    if HoldsLease(s.db, p.scan, token) {
      var j := s.db.jobs[p.scan];
      PutSettles(s, pid, p.scan,
                 j.(scannerId := Some(p.pc.scannerId), status := RUNNING, startedAt := Some(at),
                    leaseToken := None, leaseExpires := None, updatedAt := at),
                 Some(ServiceEvent(p.scan, p.owner, ScanStarted, Success, Empty, j.allowedTarget)), DispatchReturned);
    } else {
      SettleDb(s, pid, Unchanged, DispatchReturned, DispatchReturned);
    }
  }

  lemma FailureRecords(s: System, pid: Id, at: Time, token: Id)
    requires pid in s.procs && s.procs[pid].pc.DispatchFail? && s.procs[pid].pc.token == token
    requires !RecordFailureStep(s, pid, at).refused
    requires HoldsLease(s.db, s.procs[pid].scan, token) ==> s.db.jobs[s.procs[pid].scan].scannerId.None?
    ensures var scan, t := s.procs[pid].scan, RecordFailureStep(s, pid, at);
      if HoldsLease(s.db, scan, token)
      then scan in t.db.jobs && Recorded(s.procs[pid], t.db.jobs[scan])
      else t.db == s.db
  {
    hide Put, Settle;
    var p, blocked := s.procs[pid], s.procs[pid].pc.blocked;
    if HoldsLease(s.db, p.scan, token) {
      var j := s.db.jobs[p.scan];
      PutSettles(s, pid, p.scan,
                 j.(status := if blocked then BLOCKED else FAILED, failure := Some(p.pc.code),
                    leaseToken := None, leaseExpires := None, finishedAt := Some(at), updatedAt := at),
                 Some(ServiceEvent(p.scan, p.owner, if blocked then ScanBlocked else ScanFailed,
                                   if blocked then Denied else Failure, Code(p.pc.code), j.allowedTarget)),
                 DispatchReturned);
    } else {
      SettleDb(s, pid, Unchanged, DispatchReturned, DispatchReturned);
    }
  }
}
