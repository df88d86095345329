// What a poll answers, told from its own fetch: over every execution, with any
// number of other requests in between.
module ProtocolAnswers {
  import opened Collections
  import opened ScanTasks
  import opened ScanRecords
  import opened DispatchProtocol
  import opened ProtocolInvariant
  import opened ProtocolQuiet
  import opened ProtocolSafety
  import opened ProtocolPoll
  import Store = JobStore
  import Go = GoEngine

  predicate Acts(a: Action, pid: Id) {
    (a.Proceed? && a.pid == pid) || (a.Arrive? && a.pid == pid)
  }

  // A fetch that fails for good: the scanner does not know the job, or what it
  // sent cannot be used.
  predicate FailingFetch(s: System, pid: Id, step: Step) {
    && step.Fetch? && pid in s.procs && s.procs[pid].pc.PollFetch?
    && (step.outcome == Garbled || (step.outcome == Reached && s.procs[pid].pc.scannerId !in s.engine.store.jobs))
  }

  // The request that moves at n has fetched at m, in the same life: it has been
  // there ever since.
  ghost predicate OwnFetch(states: seq<System>, actions: seq<Action>, m: nat, n: nat, pid: Id) {
    && m < n < |states| && n <= |actions|
    && actions[m].Proceed? && actions[m].pid == pid && actions[m].step.Fetch?
    && forall k :: m < k <= n ==> pid in states[k].procs
  }

  ghost predicate Fetched(states: seq<System>, actions: seq<Action>, n: nat, pid: Id) {
    exists m: nat :: OwnFetch(states, actions, m, n, pid)
  }

  ghost predicate FetchFailed(states: seq<System>, actions: seq<Action>, n: nat, pid: Id) {
    exists m: nat :: OwnFetch(states, actions, m, n, pid) && FailingFetch(states[m], pid, actions[m].step)
  }

  // ------------------------------------------------------------------ one step

  // Where a request may stand, given whether it has fetched and how that ended.
  predicate Placed(pc: Pc, fetched: bool, failed: bool) {
    match pc
    case PollSynchronize(_, _) => !failed
    case PollFail(_) => failed
    case PollRefresh(flag) => flag == failed
    case PollResults(_) => !failed
    case PollMismatch => true
    case Ended => true
    case _ => !fetched && !failed
  }

  // The step of a request leaves it in its place, or answers for it.
  ghost predicate StepPlaces(s: System, t: System, pid: Id, fetched: bool, failed: bool) {
    && (pid in t.procs ==> t.responses == s.responses && Placed(t.procs[pid].pc, fetched, failed))
    && (t.responses == s.responses ||
        (|t.responses| == |s.responses| + 1 && t.responses[|s.responses|].failed == failed))
  }

  // Nobody but the request pid is touched, nobody is added, and the scanner and
  // its history are left alone.
  ghost predicate Mine(s: System, t: System, pid: Id) {
    && (t.procs == s.procs - {pid} || (pid in t.procs && t.procs == s.procs[pid := t.procs[pid]]))
    && t.engine == s.engine && t.creators == s.creators
  }

  predicate EarlyPc(pc: Pc) {
    !pc.PollSynchronize? && !pc.PollFail? && !pc.PollRefresh? && !pc.PollResults? && pc != PollMismatch
  }

  // A step that answers nothing and stays ahead of the synchronization.
  ghost predicate EarlyMine(s: System, t: System, pid: Id) {
    Mine(s, t, pid) && t.responses == s.responses && (pid in t.procs ==> EarlyPc(t.procs[pid].pc))
  }

  lemma MoveIsMine(s: System, pid: Id, pc: Pc)
    requires pid in s.procs
    ensures var t := Move(s, pid, pc);
      Mine(s, t, pid) && t.responses == s.responses && pid in t.procs && t.procs[pid].pc == pc
  {}

  lemma MoveIsEarly(s: System, pid: Id, pc: Pc)
    requires pid in s.procs && EarlyPc(pc)
    ensures EarlyMine(s, Move(s, pid, pc), pid)
  {
    hide Move, Mine;
    MoveIsMine(s, pid, pc);
  }

  lemma SettleIsMine(s: System, pid: Id, w: Write, applied: Pc, skipped: Pc)
    requires pid in s.procs
    ensures var t := Settle(s, pid, w, applied, skipped);
      && Mine(s, t, pid) && t.responses == s.responses
      && (pid in t.procs ==> t.procs[pid].pc == applied || t.procs[pid].pc == skipped)
  {}

  lemma SettleIsEarly(s: System, pid: Id, w: Write, applied: Pc, skipped: Pc)
    requires pid in s.procs && EarlyPc(applied) && EarlyPc(skipped)
    ensures EarlyMine(s, Settle(s, pid, w, applied, skipped), pid)
  {
    hide Settle, Mine;
    SettleIsMine(s, pid, w, applied, skipped);
  }

  lemma LockIsEarly(env: Env, s: System, pid: Id)
    requires pid in s.procs
    ensures EarlyMine(s, TakeLockStep(env, s, pid), pid) && EarlyMine(s, CountStep(env, s, pid), pid)
  {
    hide ActiveOf;
  }

  lemma InsertIsEarly(s: System, pid: Id)
    requires pid in s.procs
    ensures EarlyMine(s, s.(procs := s.procs[pid := s.procs[pid].(pc := AdmitCommit(true))]), pid)
  {}

  // Who is touched does not depend on the rest of the state.
  lemma MineElsewhere(s: System, u: System, t: System, pid: Id)
    requires u.procs == s.procs && u.responses == s.responses && u.engine == s.engine && u.creators == s.creators
    requires EarlyMine(u, t, pid)
    ensures EarlyMine(s, t, pid)
  {}

  lemma ClaimIsEarly(env: Env, s: System, pid: Id, token: Id, at: Time)
    requires pid in s.procs
    ensures EarlyMine(s, ClaimStep(env, s, pid, token, at), pid)
  {
    hide Settle, ClaimDispatch, EarlyMine;
    var w := ClaimDispatch(s.db, s.procs[pid].scan, token, env.leaseSeconds, at);
    var scan := s.procs[pid].scan;
    var earlier := if scan in s.claims then s.claims[scan] else [];
    var u := s.(tokens := s.tokens[token := scan],
                claims := if w.Applied? then s.claims[scan := earlier + [token]] else s.claims);
    SettleIsEarly(u, pid, w, DispatchAuthorize(token), DispatchReturned);
    MineElsewhere(s, u, ClaimStep(env, s, pid, token, at), pid);
  }

  lemma FreedIs(env: Env, s: System, pid: Id)
    requires pid in s.procs
    ensures var u := Unlock(env, s, pid); u.(locks := s.locks) == s
    ensures EarlyMine(s, Drop(Unlock(env, s, pid), pid), pid)
  {}

  lemma CommitIsEarly(env: Env, s: System, pid: Id)
    requires pid in s.procs && s.procs[pid].pc.AdmitCommit?
    ensures EarlyMine(s, CommitStep(env, s, pid), pid)
  {
    hide Settle, InsertQueued, Unlock, EarlyMine, Drop;
    var p, u := s.procs[pid], Unlock(env, s, pid);
    FreedIs(env, s, pid);
    if p.pc.admitted {
      SettleIsEarly(u, pid, InsertQueued(s.db, p.scan, p.owner, p.request, p.rule, p.since), DispatchClaim, Ended);
      MineElsewhere(s, u, CommitStep(env, s, pid), pid);
    }
  }

  lemma AttachIsEarly(s: System, pid: Id, at: Time)
    requires pid in s.procs && s.procs[pid].pc.DispatchAttach?
    ensures EarlyMine(s, AttachStep(s, pid, at), pid)
  {
    hide Settle, EarlyMine;
    var p := s.procs[pid];
    var w := AttachAllowedTarget(s.db, p.scan, p.pc.rule, p.pc.token, at);
    var failed := DispatchFail(p.pc.token, BlockedTarget, true);
    if w.Applied? {
      var attachment := Attachment(p.pc.token, p.scan, p.pc.rule, s.db.rules[p.pc.rule], at, p.pc.pins);
      var u := s.(attachments := s.attachments + {attachment});
      SettleIsEarly(u, pid, w, DispatchSend(attachment), failed);
      MineElsewhere(s, u, AttachStep(s, pid, at), pid);
    } else {
      SettleIsEarly(s, pid, w, failed, failed);
    }
  }

  lemma SendIsEarly(s: System, pid: Id)
    requires pid in s.procs && s.procs[pid].pc.DispatchSend?
    ensures EarlyMine(s, SendStep(s, pid), pid)
  {}

  lemma AuthorizeIsEarly(s: System, pid: Id, decision: Decision)
    requires pid in s.procs && s.procs[pid].pc.DispatchAuthorize?
    ensures EarlyMine(s, AuthorizeStep(s, pid, decision), pid)
  {}

  lemma ReceiveIsEarly(s: System, pid: Id)
    requires pid in s.procs && s.procs[pid].pc.DispatchAwait? && s.procs[pid].pc.token in s.replies
    ensures EarlyMine(s, ReceiveStep(s, pid), pid)
  {
    hide Move;
    var token := s.procs[pid].pc.token;
    MoveIsEarly(s, pid, AfterReply(s.procs[pid], token, s.replies[token]));
  }

  lemma RecordIsEarly(s: System, pid: Id, at: Time)
    requires pid in s.procs
    ensures s.procs[pid].pc.DispatchMark? ==> EarlyMine(s, RecordDispatchStep(s, pid, at), pid)
    ensures s.procs[pid].pc.DispatchFail? ==> EarlyMine(s, RecordFailureStep(s, pid, at), pid)
  {
    hide Settle, EarlyMine, MarkDispatched, MarkDispatchFailed;
    var p := s.procs[pid];
    if p.pc.DispatchMark? {
      SettleIsEarly(s, pid, MarkDispatched(s.db, p.scan, p.owner, p.pc.scannerId, p.pc.token, at),
                    DispatchReturned, DispatchReturned);
    }
    if p.pc.DispatchFail? {
      SettleIsEarly(s, pid, MarkDispatchFailed(s.db, p.scan, p.owner, p.pc.code, p.pc.blocked, p.pc.token, at),
                    DispatchReturned, DispatchReturned);
    }
  }

  predicate IsEarly(step: Step) {
    !step.Reload? && !step.Fetch? && !step.Synchronize? && !step.Refresh? && !step.ReadResults?
  }

  lemma EarlyStays(env: Env, s: System, pid: Id, step: Step)
    requires CanProceed(env, s, pid, step) && IsEarly(step)
    ensures EarlyMine(s, ProceedStep(env, s, pid, step), pid)
  {
    hide EarlyMine, TakeLockStep, CountStep, ClaimStep, CommitStep, AttachStep, SendStep, AuthorizeStep, ReceiveStep,
      RecordDispatchStep, RecordFailureStep, ReloadStep, FetchStep, SynchronizeStep, RefreshStep, Respond, Move, Drop,
      Unlock, RuleAdmits;
    match step
    case TakeLock => LockIsEarly(env, s, pid);
    case CountActive => LockIsEarly(env, s, pid);
    case InsertRow => InsertIsEarly(s, pid);
    case CommitAdmission => CommitIsEarly(env, s, pid);
    case Claim(token, at) => ClaimIsEarly(env, s, pid, token, at);
    case Authorize(decision, at) => AuthorizeIsEarly(s, pid, decision);
    case Attach(at) => AttachIsEarly(s, pid, at);
    case SendCreate => SendIsEarly(s, pid);
    case ReceiveCreate => ReceiveIsEarly(s, pid);
    case GiveUp => MoveIsEarly(s, pid, DispatchReturned);
    case Misread => MoveIsEarly(s, pid, DispatchFail(s.procs[pid].pc.token, InternalError, false));
    case RecordDispatch(at) => RecordIsEarly(s, pid, at);
    case RecordFailure(at) => RecordIsEarly(s, pid, at);
    case Stop => FreedIs(env, s, pid);
  }

  // Early steps are taken before the fetch, or end the request.
  lemma EarlyFrom(env: Env, s: System, pid: Id, step: Step)
    requires CanProceed(env, s, pid, step) && IsEarly(step) && step != Stop
    ensures EarlyPc(s.procs[pid].pc) && s.procs[pid].pc != Ended
  {
    hide RuleAdmits;
  }

  lemma StopEnds(env: Env, s: System, pid: Id)
    ensures pid !in Drop(Unlock(env, s, pid), pid).procs
    requires pid in s.procs
  {}

  function Synchronized(pc: Pc): Pc {
    if pc.PollSynchronize? then PollRefresh(false) else if pc.PollFail? then PollRefresh(true) else Ended
  }

  lemma SynchronizeStays(s: System, pid: Id, at: Time)
    requires pid in s.procs
    requires s.procs[pid].pc.PollSynchronize? || s.procs[pid].pc.PollFail? || s.procs[pid].pc == PollMismatch
    ensures var t := SynchronizeStep(s, pid, at);
      && Mine(s, t, pid) && t.responses == s.responses
      && (pid in t.procs ==> t.procs[pid].pc == Synchronized(s.procs[pid].pc))
  {
    hide Settle, SynchronizeWrite, MarkSynchronizationFailed, Mine;
    var p := s.procs[pid];
    match p.pc {
      case PollSynchronize(scannerId, answer) =>
        SettleIsMine(s, pid, SynchronizeWrite(s, p, answer, at), PollRefresh(false), PollRefresh(false));
      case PollFail(code) =>
        SettleIsMine(s, pid, MarkSynchronizationFailed(s.db, p.scan, p.owner, code, at),
                     PollRefresh(true), PollRefresh(true));
      case _ =>
        SettleIsMine(s, pid, MarkSynchronizationFailed(s.db, p.scan, p.owner, InternalError, at), Ended, Ended);
    }
  }

  lemma RespondIsMine(s: System, pid: Id, job: Job, results: map<Endpoint, PortState>, failed: bool)
    requires pid in s.procs
    ensures var t := Respond(s, pid, job, results, failed);
      && Mine(s, t, pid) && pid !in t.procs
      && t.responses == s.responses + [Response(s.procs[pid].scan, job, results, failed, s.procs[pid].begun)]
  {}

  lemma AnswerIsMine(s: System, pid: Id, job: Job)
    requires pid in s.procs
    ensures Mine(s, Answer(s, pid, job), pid)
  {
    hide Move, Respond, Mine;
    MoveIsMine(s, pid, PollResults(job));
    RespondIsMine(s, pid, job, map[], false);
  }

  lemma LateIsMine(env: Env, s: System, pid: Id, step: Step)
    requires CanProceed(env, s, pid, step) && !IsEarly(step)
    ensures Mine(s, ProceedStep(env, s, pid, step), pid)
  {
    hide Mine, TakeLockStep, CountStep, ClaimStep, CommitStep, AttachStep, SendStep, AuthorizeStep, ReceiveStep,
      RecordDispatchStep, RecordFailureStep, SynchronizeStep, Respond, Move, Drop, Unlock, RuleAdmits, AfterFetch,
      Answer, ResultsOf;
    var p := s.procs[pid];
    match step
    case Reload =>
      AnswerIsMine(s, pid, s.db.jobs[p.scan]);
      if s.db.jobs[p.scan].scannerId.Some? {
        MoveIsMine(s, pid, PollFetch(s.db.jobs[p.scan].scannerId.value, s.db.jobs[p.scan]));
      }
    case Fetch(outcome) =>
      MoveIsMine(s, pid, AfterFetch(s, p.pc.scannerId, p.pc.job));
      MoveIsMine(s, pid, Ended);
      MoveIsMine(s, pid, PollFail(InternalError));
    case Synchronize(at) => SynchronizeStays(s, pid, at);
    case Refresh =>
      AnswerIsMine(s, pid, s.db.jobs[p.scan]);
      RespondIsMine(s, pid, s.db.jobs[p.scan], map[], true);
    case ReadResults => RespondIsMine(s, pid, p.pc.job, ResultsOf(s.db, p.scan), false);
  }

  // Nobody else's step touches a request.
  lemma StepIsMine(env: Env, s: System, pid: Id, step: Step)
    requires CanProceed(env, s, pid, step)
    ensures Mine(s, ProceedStep(env, s, pid, step), pid)
  {
    hide Mine, CanProceed, ProceedStep;
    if IsEarly(step) {
      EarlyStays(env, s, pid, step);
    } else {
      LateIsMine(env, s, pid, step);
    }
  }

  lemma HandleTouchesNobody(s: System, token: Id, verdict: Option<FailureCode>, scannerId: Id)
    requires token in s.sent
    ensures HandleStep(s, token, verdict, scannerId).procs == s.procs
    ensures HandleStep(s, token, verdict, scannerId).responses == s.responses
  {
    hide Go.Receive;
  }

  lemma BlockTouchesNobody(s: System, scan: Id, owner: Subject, request: ScanRequest, code: FailureCode,
                           matched: Option<Id>, at: Time)
    requires CanHappen(s, BlockAtAdmission(scan, owner, request, code, matched, at))
    ensures var t := HappenStep(s, BlockAtAdmission(scan, owner, request, code, matched, at));
      t.procs == s.procs && t.responses == s.responses
  {
    hide CanHappen, InsertBlocked;
    match InsertBlocked(s.db, scan, owner, request, code, matched, at)
    case Applied(db) =>
    case _ =>
  }

  lemma HandledMessage(s: System, event: Event)
    requires CanHappen(s, event) && event.HandleCreate?
    ensures event.token in s.sent
  {
    hide HappenStep;
  }

  lemma EventTouchesNobody(s: System, event: Event)
    requires CanHappen(s, event)
    ensures HappenStep(s, event).procs == s.procs && HappenStep(s, event).responses == s.responses
  {
    hide HandleStep, InsertBlocked, Go.Start, Go.Finish, Go.Restart, CanHappen;
    match event
    case HandleCreate(token, verdict, scannerId) =>
      HandledMessage(s, event);
      HandleTouchesNobody(s, token, verdict, scannerId);
    case BlockAtAdmission(scan, owner, request, code, matched, at) =>
      BlockTouchesNobody(s, scan, owner, request, code, matched, at);
    case _ =>
  }

  lemma AfterLoadIsMine(s: System, pid: Id, job: Job)
    requires pid in s.procs
    ensures Mine(s, AfterLoad(s, pid, job), pid)
  {
    hide Mine, Move, Answer;
    AnswerIsMine(s, pid, job);
    MoveIsMine(s, pid, DispatchClaim);
    if job.scannerId.Some? {
      MoveIsMine(s, pid, PollFetch(job.scannerId.value, job));
    }
  }

  lemma ArrivalIsMine(s: System, pid: Id, arrival: Arrival)
    requires CanArrive(s, pid, arrival)
    ensures Mine(s, ArriveStep(s, pid, arrival), pid)
  {
    hide AfterLoad;
    match arrival
    case Admission(scan, owner, request, matched) =>
    case Poll(scan) => AfterLoadIsMine(Arriving(s, pid, scan), pid, s.db.jobs[scan]);
  }

  // A request that does not act stays as it is, and nobody else comes or answers.
  lemma Untouched(env: Env, s: System, a: Action, pid: Id)
    requires Enabled(env, s, a) && !Acts(a, pid)
    ensures pid in Apply(env, s, a).procs <==> pid in s.procs
    ensures pid in s.procs ==> Apply(env, s, a).procs[pid] == s.procs[pid]
  {
    hide ProceedStep, CanProceed, ArriveStep, CanArrive, HappenStep, CanHappen;
    match a
    case Arrive(q, arrival) => ArrivalIsMine(s, q, arrival);
    case Happen(event) => EventTouchesNobody(s, event);
    case Proceed(q, step) => StepIsMine(env, s, q, step);
  }

  // ---------------------------------------------------- the request's own steps

  lemma FetchPlaces(s: System, pid: Id, outcome: FetchOutcome)
    requires pid in s.procs && s.procs[pid].pc.PollFetch?
    requires var g := s.procs[pid].pc.scannerId;
      AfterFetch(s, g, s.procs[pid].pc.job) ==
        if g in s.engine.store.jobs then PollSynchronize(g, s.engine.store.jobs[g]) else PollFail(ScanNotFound)
    ensures StepPlaces(s, FetchStep(s, pid, outcome), pid, true, FailingFetch(s, pid, Fetch(outcome)))
  {
    hide AfterFetch, Move, Mine;
    var p := s.procs[pid];
    MoveIsMine(s, pid, AfterFetch(s, p.pc.scannerId, p.pc.job));
    MoveIsMine(s, pid, Ended);
    MoveIsMine(s, pid, PollFail(InternalError));
  }

  lemma RespondPlaces(s: System, pid: Id, job: Job, results: map<Endpoint, PortState>, fetched: bool, failed: bool)
    requires pid in s.procs
    ensures StepPlaces(s, Respond(s, pid, job, results, failed), pid, fetched, failed)
  {
    hide Respond, Mine, Placed;
    RespondIsMine(s, pid, job, results, failed);
  }

  lemma MovePlaces(s: System, pid: Id, pc: Pc, fetched: bool, failed: bool)
    requires pid in s.procs && Placed(pc, fetched, failed)
    ensures StepPlaces(s, Move(s, pid, pc), pid, fetched, failed)
  {
    hide Move, Mine, Placed;
    MoveIsMine(s, pid, pc);
  }

  lemma AnswerPlaces(s: System, pid: Id, job: Job, fetched: bool)
    requires pid in s.procs
    ensures StepPlaces(s, Answer(s, pid, job), pid, fetched, false)
  {
    hide Move, Respond, StepPlaces;
    MovePlaces(s, pid, PollResults(job), fetched, false);
    RespondPlaces(s, pid, job, map[], fetched, false);
  }

  lemma ReloadPlaces(s: System, pid: Id)
    requires pid in s.procs && s.procs[pid].scan in s.db.jobs
    ensures StepPlaces(s, ReloadStep(s, pid), pid, false, false)
  {
    hide Answer, Move, StepPlaces;
    var job := s.db.jobs[s.procs[pid].scan];
    AnswerPlaces(s, pid, job, false);
    if job.scannerId.Some? {
      MovePlaces(s, pid, PollFetch(job.scannerId.value, job), false, false);
    }
  }

  lemma RefreshPlaces(s: System, pid: Id, fetched: bool, failed: bool)
    requires pid in s.procs && s.procs[pid].pc == PollRefresh(failed) && s.procs[pid].scan in s.db.jobs
    ensures StepPlaces(s, RefreshStep(s, pid), pid, fetched, failed)
  {
    hide Answer, Respond, StepPlaces;
    var job := s.db.jobs[s.procs[pid].scan];
    AnswerPlaces(s, pid, job, fetched);
    RespondPlaces(s, pid, job, map[], fetched, true);
  }

  lemma SynchronizePlaces(s: System, pid: Id, at: Time, fetched: bool, failed: bool)
    requires pid in s.procs && Placed(s.procs[pid].pc, fetched, failed)
    requires s.procs[pid].pc.PollSynchronize? || s.procs[pid].pc.PollFail? || s.procs[pid].pc == PollMismatch
    ensures StepPlaces(s, SynchronizeStep(s, pid, at), pid, fetched, failed)
  {
    hide SynchronizeStep, Mine;
    SynchronizeStays(s, pid, at);
  }

  lemma EarlyPlaces(env: Env, s: System, pid: Id, step: Step, fetched: bool, failed: bool)
    requires CanProceed(env, s, pid, step) && IsEarly(step) && Placed(s.procs[pid].pc, fetched, failed)
    ensures StepPlaces(s, ProceedStep(env, s, pid, step), pid, fetched, failed)
  {
    hide CanProceed, ProceedStep, Mine, RuleAdmits;
    EarlyStays(env, s, pid, step);
    if step == Stop {
      StopIs(env, s, pid);
      StopEnds(env, s, pid);
    } else {
      EarlyFrom(env, s, pid, step);
    }
  }

  lemma StopIs(env: Env, s: System, pid: Id)
    requires CanProceed(env, s, pid, Stop)
    ensures pid in s.procs && ProceedStep(env, s, pid, Stop) == Drop(Unlock(env, s, pid), pid)
  {
    hide Drop, Unlock;
  }

  lemma LatePlaces(env: Env, s: System, pid: Id, step: Step, fetched: bool, failed: bool)
    requires CanProceed(env, s, pid, step) && !IsEarly(step) && !step.Fetch?
    requires Placed(s.procs[pid].pc, fetched, failed)
    ensures StepPlaces(s, ProceedStep(env, s, pid, step), pid, fetched, failed)
  {
    hide StepPlaces, TakeLockStep, CountStep, ClaimStep, CommitStep, AttachStep, SendStep, AuthorizeStep, ReceiveStep,
      RecordDispatchStep, RecordFailureStep, SynchronizeStep, ReloadStep, RefreshStep, FetchStep, Respond, Move, Drop,
      Unlock, RuleAdmits, ResultsOf;
    match step
    case Reload => ReloadPlaces(s, pid);
    case Refresh => RefreshPlaces(s, pid, fetched, failed);
    case Synchronize(at) => SynchronizePlaces(s, pid, at, fetched, failed);
    case ReadResults =>
      RespondPlaces(s, pid, s.procs[pid].pc.job, ResultsOf(s.db, s.procs[pid].scan), fetched, false);
  }

  lemma FetchSees(env: Env, s: System, pid: Id, outcome: FetchOutcome)
    requires Inv(env, s) && CanProceed(env, s, pid, Fetch(outcome))
    ensures pid in s.procs && s.procs[pid].pc.PollFetch?
    ensures var g := s.procs[pid].pc.scannerId;
      AfterFetch(s, g, s.procs[pid].pc.job) ==
        if g in s.engine.store.jobs then PollSynchronize(g, s.engine.store.jobs[g]) else PollFail(ScanNotFound)
    ensures ProceedStep(env, s, pid, Fetch(outcome)) == FetchStep(s, pid, outcome)
  {
    hide Inv, LinksOk, JobsOk, Go.EngineOk, ServingOk, AfterFetch, FetchStep, RuleAdmits;
    PcOf(env, s, pid);
    LinksOf(env, s);
    FetchIs(env, s, s.procs[pid], s.procs[pid].pc.scannerId, s.procs[pid].pc.job);
  }

  lemma OwnStepPlaces(env: Env, s: System, pid: Id, step: Step, fetched: bool, failed: bool)
    requires Inv(env, s) && CanProceed(env, s, pid, step)
    requires Placed(s.procs[pid].pc, fetched, failed) && (failed ==> fetched)
    ensures StepPlaces(s, ProceedStep(env, s, pid, step), pid, fetched || step.Fetch?,
                       failed || FailingFetch(s, pid, step))
  {
    hide Inv, CanProceed, ProceedStep, StepPlaces, AfterFetch;
    if step.Fetch? {
      FetchSees(env, s, pid, step.outcome);
      FetchPlaces(s, pid, step.outcome);
    } else if IsEarly(step) {
      EarlyPlaces(env, s, pid, step, fetched, failed);
    } else {
      LatePlaces(env, s, pid, step, fetched, failed);
    }
  }

  lemma ArrivalPlaces(s: System, pid: Id, arrival: Arrival)
    requires CanArrive(s, pid, arrival)
    ensures StepPlaces(s, ArriveStep(s, pid, arrival), pid, false, false)
  {
    hide Answer, Move;
    if arrival.Poll? {
      var job := s.db.jobs[arrival.polled];
      var u := Arriving(s, pid, arrival.polled);
      AnswerPlaces(u, pid, job, false);
      MovePlaces(u, pid, DispatchClaim, false, false);
      if job.scannerId.Some? {
        MovePlaces(u, pid, PollFetch(job.scannerId.value, job), false, false);
      }
    }
  }

  // ------------------------------------------------------------------ executions

  lemma FetchedNext(states: seq<System>, actions: seq<Action>, n: nat, pid: Id)
    requires n < |actions| && |states| == |actions| + 1 && pid in states[n + 1].procs && pid in states[n].procs
    ensures var own := actions[n].Proceed? && actions[n].pid == pid && actions[n].step.Fetch?;
      && (Fetched(states, actions, n + 1, pid) <==> Fetched(states, actions, n, pid) || own)
      && (FetchFailed(states, actions, n + 1, pid) <==>
            FetchFailed(states, actions, n, pid) || (own && FailingFetch(states[n], pid, actions[n].step)))
  {
    hide FailingFetch;
    forall m: nat | m < n ensures OwnFetch(states, actions, m, n, pid) <==> OwnFetch(states, actions, m, n + 1, pid) {}
    if actions[n].Proceed? && actions[n].pid == pid && actions[n].step.Fetch? {
      assert OwnFetch(states, actions, n, n + 1, pid);
    }
    if Fetched(states, actions, n, pid) {
      var m: nat :| OwnFetch(states, actions, m, n, pid);
      assert OwnFetch(states, actions, m, n + 1, pid);
    }
    if FetchFailed(states, actions, n, pid) {
      var m: nat :| OwnFetch(states, actions, m, n, pid) && FailingFetch(states[m], pid, actions[m].step);
      assert OwnFetch(states, actions, m, n + 1, pid);
    }
    if Fetched(states, actions, n + 1, pid) {
      var m: nat :| OwnFetch(states, actions, m, n + 1, pid);
      assert m < n ==> OwnFetch(states, actions, m, n, pid);
    }
    if FetchFailed(states, actions, n + 1, pid) {
      var m: nat :| OwnFetch(states, actions, m, n + 1, pid) && FailingFetch(states[m], pid, actions[m].step);
      assert m < n ==> OwnFetch(states, actions, m, n, pid);
    }
  }

  lemma NewcomersArrive(env: Env, s: System, a: Action, pid: Id)
    requires Enabled(env, s, a) && pid !in s.procs && pid in Apply(env, s, a).procs
    ensures a.Arrive? && a.pid == pid
  {
    hide Apply, CanArrive, CanHappen, CanProceed;
    if !Acts(a, pid) {
      Untouched(env, s, a, pid);
    } else if a.Proceed? {
      ProceedersAreThere(env, s, pid, a.step);
    }
  }

  lemma ProceedersAreThere(env: Env, s: System, pid: Id, step: Step)
    requires CanProceed(env, s, pid, step)
    ensures pid in s.procs
  {
    hide RuleAdmits;
  }

  lemma NewcomersHaveNotFetched(states: seq<System>, actions: seq<Action>, n: nat, pid: Id)
    requires n < |states| && |states| == |actions| + 1 && pid !in states[n].procs
    ensures !Fetched(states, actions, n, pid) && !FetchFailed(states, actions, n, pid)
    ensures n < |actions| && !actions[n].Proceed? ==>
      !Fetched(states, actions, n + 1, pid) && !FetchFailed(states, actions, n + 1, pid)
  {
    hide FailingFetch;
  }

  lemma {:induction false} RequestsArePlaced(env: Env, states: seq<System>, actions: seq<Action>, n: nat, pid: Id)
    requires Execution(env, states, actions) && Init(env, states[0]) && n <= |actions| && pid in states[n].procs
    ensures Placed(states[n].procs[pid].pc, Fetched(states, actions, n, pid), FetchFailed(states, actions, n, pid))
    decreases n, 0
  {
    hide Inv, Init, Enabled, Apply, Placed, Fetched, FetchFailed, FailingFetch;
    if n == 0 {
      NobodyAtFirst(env, states[0]);
    } else {
      PlacedNext(env, states, actions, n - 1, pid);
    }
  }

  lemma FailingFetches(s: System, pid: Id, step: Step)
    ensures FailingFetch(s, pid, step) ==> step.Fetch?
  {}

  lemma FailedIsFetched(states: seq<System>, actions: seq<Action>, n: nat, pid: Id)
    ensures FetchFailed(states, actions, n, pid) ==> Fetched(states, actions, n, pid)
  {
    hide FailingFetch, OwnFetch;
  }

  lemma NobodyAtFirst(env: Env, s: System)
    requires Init(env, s)
    ensures s.procs == map[]
  {}

  lemma PlacedNext(env: Env, states: seq<System>, actions: seq<Action>, n: nat, pid: Id)
    requires Execution(env, states, actions) && Init(env, states[0]) && n < |actions| && pid in states[n + 1].procs
    ensures Placed(states[n + 1].procs[pid].pc, Fetched(states, actions, n + 1, pid),
                   FetchFailed(states, actions, n + 1, pid))
    decreases n, 1
  {
    hide Inv, Init, Enabled, Apply, Placed, Fetched, FetchFailed, FailingFetch;
    var s, a := states[n], actions[n];
    assert Enabled(env, s, a) && states[n + 1] == Apply(env, s, a);
    if pid !in s.procs {
      NewcomersArrive(env, s, a, pid);
      NewcomersHaveNotFetched(states, actions, n, pid);
      ArrivalAction(env, s, a, pid);
    } else {
      FetchedNext(states, actions, n, pid);
      RequestsArePlaced(env, states, actions, n, pid);
      FailedIsFetched(states, actions, n, pid);
      if Acts(a, pid) {
        ReachableOk(env, states, actions, n);
        OwnAction(env, s, a, pid, Fetched(states, actions, n, pid), FetchFailed(states, actions, n, pid));
        FailingFetches(s, pid, a.step);
      } else {
        Untouched(env, s, a, pid);
      }
    }
  }

  lemma ArrivalAction(env: Env, s: System, a: Action, pid: Id)
    requires Enabled(env, s, a) && a.Arrive? && a.pid == pid
    ensures StepPlaces(s, Apply(env, s, a), pid, false, false)
    ensures pid in Apply(env, s, a).procs ==> Placed(Apply(env, s, a).procs[pid].pc, false, false)
  {
    hide ArriveStep, CanProceed, ProceedStep, CanHappen, HappenStep;
    ArrivalPlaces(s, pid, a.arrival);
  }

  lemma OwnAction(env: Env, s: System, a: Action, pid: Id, fetched: bool, failed: bool)
    requires Inv(env, s) && Enabled(env, s, a) && pid in s.procs && Acts(a, pid)
    requires Placed(s.procs[pid].pc, fetched, failed) && (failed ==> fetched)
    ensures a.Proceed?
    ensures StepPlaces(s, Apply(env, s, a), pid, fetched || a.step.Fetch?, failed || FailingFetch(s, pid, a.step))
    ensures pid in Apply(env, s, a).procs ==>
      Placed(Apply(env, s, a).procs[pid].pc, fetched || a.step.Fetch?, failed || FailingFetch(s, pid, a.step))
  {
    hide Inv, ProceedStep, CanProceed, CanHappen, HappenStep, ArriveStep, Placed, FailingFetch;
    if a.Proceed? {
      OwnStepPlaces(env, s, pid, a.step, fetched, failed);
    }
  }

  // ---------------------------------------------------------------- main results

  // Action n is a step of the request pid and gives the answer r.
  ghost predicate Answers(states: seq<System>, actions: seq<Action>, n: nat, pid: Id, r: Response) {
    && n < |actions| && |states| == |actions| + 1 && Acts(actions[n], pid)
    && states[n + 1].responses == states[n].responses + [r]
  }

  // An answer comes from the failure branch exactly when the poll's own fetch
  // failed for good: it reached a scanner that no longer knew the job, or got
  // something it could not use.
  lemma FailedAnswersFetchedInVain(env: Env, states: seq<System>, actions: seq<Action>, n: nat, pid: Id, r: Response)
    requires Execution(env, states, actions) && Init(env, states[0]) && Answers(states, actions, n, pid, r)
    ensures r.failed <==> FetchFailed(states, actions, n, pid)
  {
    hide Inv, Init, Enabled, Apply, Placed, Fetched, FetchFailed, FailingFetch;
    var s, a := states[n], actions[n];
    assert Enabled(env, s, a) && states[n + 1] == Apply(env, s, a);
    if pid in s.procs {
      RequestsArePlaced(env, states, actions, n, pid);
      FailedIsFetched(states, actions, n, pid);
      ReachableOk(env, states, actions, n);
      OwnAction(env, s, a, pid, Fetched(states, actions, n, pid), FetchFailed(states, actions, n, pid));
      FailingFetches(s, pid, a.step);
      if a.step.Fetch? {
        FetchesDoNotAnswer(env, s, pid, a);
      }
    } else {
      NewcomersHaveNotFetched(states, actions, n, pid);
      AbsentArrive(env, s, a, pid);
      ArrivalAction(env, s, a, pid);
    }
  }

  lemma AbsentArrive(env: Env, s: System, a: Action, pid: Id)
    requires Enabled(env, s, a) && Acts(a, pid) && pid !in s.procs
    ensures a.Arrive? && a.pid == pid
  {
    hide CanArrive, CanHappen, CanProceed;
    if a.Proceed? {
      ProceedersAreThere(env, s, pid, a.step);
    }
  }

  lemma FetchesDoNotAnswer(env: Env, s: System, pid: Id, a: Action)
    requires Enabled(env, s, a) && Acts(a, pid) && a.Proceed? && a.step.Fetch?
    ensures Apply(env, s, a).responses == s.responses
  {
    hide FetchStep, RuleAdmits, CanHappen, CanArrive, HappenStep, ArriveStep, TakeLockStep, CountStep, ClaimStep,
      CommitStep, AttachStep, SendStep, AuthorizeStep, ReceiveStep, RecordDispatchStep, RecordFailureStep,
      SynchronizeStep, ReloadStep, RefreshStep, Respond, Move, Drop, Unlock;
    FetchAnswersNothing(s, pid, a.step.outcome);
  }

  lemma FetchAnswersNothing(s: System, pid: Id, outcome: FetchOutcome)
    requires pid in s.procs && s.procs[pid].pc.PollFetch?
    ensures FetchStep(s, pid, outcome).responses == s.responses
  {
    hide AfterFetch;
  }

  // A completed answer is the row, and full unless the fetch failed; any other
  // answer carries no results.
  ghost predicate TrueToTheRow(s: System, r: Response, fetchFailed: bool) {
    && r.scan in s.db.jobs
    && (r.job.status == COMPLETED ==>
          s.db.jobs[r.scan] == r.job && (r.results == ResultsOf(s.db, r.scan) <==> !fetchFailed))
    && (r.job.status != COMPLETED || fetchFailed ==> r.results == map[])
  }

  // Hence whether a completed answer is full is settled before it is given, by
  // the poll's own fetch; and what it carries stays the row's result set.
  lemma CompletedAnswersFollowTheirFetch(env: Env, states: seq<System>, actions: seq<Action>, n: nat, later: nat,
                                         pid: Id, r: Response)
    requires Execution(env, states, actions) && Init(env, states[0]) && Answers(states, actions, n, pid, r)
    requires n < later <= |actions|
    ensures TrueToTheRow(states[later], r, FetchFailed(states, actions, n, pid))
  {
    hide Inv, Init, Enabled, Apply, Acts, FetchFailed, ResultsOf, RowsEvolve;
    FailedAnswersFetchedInVain(env, states, actions, n, pid, r);
    ReachableEvolves(env, states, actions, n + 1, later);
    var i := |states[n].responses|;
    assert states[n + 1].responses[i] == r;
    assert i < |states[later].responses| && states[later].responses[i] == r;
    CompletedAnswersAreFull(env, states, actions, later, i);
  }

  lemma AppendedIsAnswer(env: Env, states: seq<System>, actions: seq<Action>, n: nat)
    returns (pid: Id)
    requires Execution(env, states, actions) && Init(env, states[0]) && n < |actions|
    requires states[n + 1].responses != states[n].responses
    ensures Acts(actions[n], pid) && |states[n + 1].responses| == |states[n].responses| + 1
  {
    hide Inv, Init, Enabled, Apply, Placed, Fetched, FetchFailed, FailingFetch;
    var s, a := states[n], actions[n];
    assert Enabled(env, s, a) && states[n + 1] == Apply(env, s, a);
    if a.Happen? {
      EventAnswersNothing(env, s, a);
    }
    pid := a.pid;
    if pid in s.procs {
      RequestsArePlaced(env, states, actions, n, pid);
      FailedIsFetched(states, actions, n, pid);
      ReachableOk(env, states, actions, n);
      OwnAction(env, s, a, pid, Fetched(states, actions, n, pid), FetchFailed(states, actions, n, pid));
    } else {
      AbsentArrive(env, s, a, pid);
      ArrivalAction(env, s, a, pid);
    }
  }

  lemma EventAnswersNothing(env: Env, s: System, a: Action)
    requires Enabled(env, s, a) && a.Happen?
    ensures Apply(env, s, a).responses == s.responses
  {
    hide CanHappen, HappenStep, CanArrive, CanProceed;
    EventTouchesNobody(s, a.event);
  }

  // Every answer there is was given by some request's step.
  lemma {:induction false} EveryAnswerIsGiven(env: Env, states: seq<System>, actions: seq<Action>, n: nat, i: nat)
    returns (k: nat, pid: Id)
    requires Execution(env, states, actions) && Init(env, states[0]) && n <= |actions| && i < |states[n].responses|
    ensures k < n && Answers(states, actions, k, pid, states[n].responses[i])
    decreases n
  {
    hide Inv, Enabled, Apply, Acts, RowsEvolve;
    assert n > 0;
    hide Init;
    ReachableEvolves(env, states, actions, n - 1, n);
    if i < |states[n - 1].responses| {
      k, pid := EveryAnswerIsGiven(env, states, actions, n - 1, i);
    } else {
      k := n - 1;
      pid := AppendedIsAnswer(env, states, actions, k);
      assert states[n].responses == states[k].responses + [states[n].responses[i]];
    }
  }

  // ------------------------------------------------------------ settling fetches

  // A poll that can no longer leave the row active.
  ghost predicate Settling(s: System, pid: Id) {
    && pid in s.procs
    && match s.procs[pid].pc
       case PollSynchronize(_, answer) => !Store.Active(answer)
       case PollFail(_) => true
       case PollRefresh(_) => s.procs[pid].scan in s.db.jobs && IsTerminal(s.db.jobs[s.procs[pid].scan])
       case PollResults(job) => job.status == COMPLETED
       case PollMismatch => true
       case Ended => true
       case _ => false
  }

  lemma SettlingFetch(env: Env, s: System, pid: Id)
    requires Inv(env, s) && CanProceed(env, s, pid, Fetch(Reached))
    requires pid in s.procs && s.procs[pid].pc.PollFetch? && s.procs[pid].pc.scannerId !in s.engine.workers
    ensures Settling(ProceedStep(env, s, pid, Fetch(Reached)), pid)
  {
    hide Inv, CanProceed, ProceedStep, AfterFetch, Store.Active;
    FetchSees(env, s, pid, Reached);
    WorksOn(env, s, s.procs[pid].pc.scannerId);
  }

  lemma SettledWrite(s: System, pid: Id, w: Write, next: Pc)
    requires pid in s.procs && (next.PollRefresh? || next == Ended)
    requires w.Applied? ==> s.procs[pid].scan in w.db.jobs && IsTerminal(w.db.jobs[s.procs[pid].scan])
    requires w.Unchanged? ==> s.procs[pid].scan in s.db.jobs && IsTerminal(s.db.jobs[s.procs[pid].scan])
    ensures var t := Settle(s, pid, w, next, next); pid in t.procs ==> Settling(t, pid)
  {
    hide IsTerminal;
  }

  lemma SettledByWrite(s: System, pid: Id, at: Time)
    requires Settling(s, pid) && s.procs[pid].scan in s.db.jobs
    requires s.db.jobs[s.procs[pid].scan].owner == s.procs[pid].owner
    requires s.procs[pid].pc.PollSynchronize? || s.procs[pid].pc.PollFail? || s.procs[pid].pc == PollMismatch
    ensures var t := SynchronizeStep(s, pid, at); pid in t.procs ==> Settling(t, pid)
  {
    hide Store.Active, SynchronizeWrite, MarkSynchronizationFailed, IsTerminal, Settle;
    var p := s.procs[pid];
    match p.pc {
      case PollSynchronize(scannerId, answer) =>
        SynchronizeWrites(s, p, answer, at);
        SettledWrite(s, pid, SynchronizeWrite(s, p, answer, at), PollRefresh(false));
      case PollFail(code) =>
        LostWrites(s.db, p.scan, code, at);
        SettledWrite(s, pid, MarkSynchronizationFailed(s.db, p.scan, p.owner, code, at), PollRefresh(true));
      case _ =>
        LostWrites(s.db, p.scan, InternalError, at);
        SettledWrite(s, pid, MarkSynchronizationFailed(s.db, p.scan, p.owner, InternalError, at), Ended);
    }
  }

  lemma SettlingFrom(env: Env, s: System, pid: Id, step: Step)
    requires CanProceed(env, s, pid, step) && Settling(s, pid)
    ensures step.Synchronize? || step == Refresh || step == ReadResults || step == Stop
    ensures step.Synchronize? ==>
      s.procs[pid].pc.PollSynchronize? || s.procs[pid].pc.PollFail? || s.procs[pid].pc == PollMismatch
    ensures step == Refresh ==> s.procs[pid].pc.PollRefresh?
    ensures step == ReadResults ==> s.procs[pid].pc.PollResults?
  {
    hide RuleAdmits;
  }

  lemma OneAppended(responses: seq<Response>, given: Response)
    ensures forall r :: responses + [given] == responses + [r] ==> r == given
  {
    forall r | responses + [given] == responses + [r] ensures r == given {
      assert (responses + [given])[|responses|] == (responses + [r])[|responses|];
    }
  }

  lemma SettlingAnswers(s: System, pid: Id, job: Job)
    requires pid in s.procs && IsTerminal(job)
    ensures var t := Answer(s, pid, job);
      && (pid in t.procs ==> Settling(t, pid))
      && forall r :: t.responses == s.responses + [r] ==> r.job == job
  {
    hide Respond, Move, Mine;
    var p := s.procs[pid];
    MoveIsMine(s, pid, PollResults(job));
    RespondIsMine(s, pid, job, map[], false);
    OneAppended(s.responses, Response(p.scan, job, map[], false, p.begun));
  }

  lemma SettlingRefresh(s: System, pid: Id)
    requires Settling(s, pid) && s.procs[pid].pc.PollRefresh?
    ensures var t := RefreshStep(s, pid);
      && (pid in t.procs ==> Settling(t, pid))
      && forall r :: t.responses == s.responses + [r] ==> IsTerminal(r.job)
  {
    hide Respond, Answer, Mine;
    var job := s.db.jobs[s.procs[pid].scan];
    SettlingAnswers(s, pid, job);
    RespondIsMine(s, pid, job, map[], true);
    OneAppended(s.responses, Response(s.procs[pid].scan, job, map[], true, s.procs[pid].begun));
  }

  // What the poll does next keeps it settling, and if it answers, it answers
  // with a terminal row.
  ghost predicate StillSettling(s: System, t: System, pid: Id) {
    && (pid in t.procs ==> Settling(t, pid))
    && forall r :: t.responses == s.responses + [r] ==> IsTerminal(r.job)
  }

  lemma SettlingOwn(env: Env, s: System, pid: Id, step: Step)
    requires CanProceed(env, s, pid, step) && Settling(s, pid) && s.procs[pid].scan in s.db.jobs
    requires s.db.jobs[s.procs[pid].scan].owner == s.procs[pid].owner
    ensures StillSettling(s, ProceedStep(env, s, pid, step), pid)
  {
    hide RuleAdmits, SynchronizeStep, RefreshStep, Respond, Drop, Unlock, TakeLockStep, CountStep, ClaimStep,
      CommitStep, AttachStep, SendStep, AuthorizeStep, ReceiveStep, RecordDispatchStep, RecordFailureStep, ReloadStep,
      FetchStep, Move, ResultsOf, Mine, Settling;
    SettlingFrom(env, s, pid, step);
    match step
    case Synchronize(at) =>
      SettledByWrite(s, pid, at);
      SynchronizeStays(s, pid, at);
    case Refresh => SettlingRefresh(s, pid);
    case ReadResults => SettlingReads(s, pid);
    case Stop =>
      FreedIs(env, s, pid);
      StopEnds(env, s, pid);
      StoppingAnswersNothing(env, s, pid);
  }

  lemma StoppingAnswersNothing(env: Env, s: System, pid: Id)
    requires pid in s.procs
    ensures Drop(Unlock(env, s, pid), pid).responses == s.responses
  {}

  lemma SettlingReads(s: System, pid: Id)
    requires Settling(s, pid) && s.procs[pid].pc.PollResults?
    ensures StillSettling(s, Respond(s, pid, s.procs[pid].pc.job, ResultsOf(s.db, s.procs[pid].scan), false), pid)
  {
    hide Respond, Mine, ResultsOf;
    var p, results := s.procs[pid], ResultsOf(s.db, s.procs[pid].scan);
    RespondIsMine(s, pid, p.pc.job, results, false);
    OneAppended(s.responses, Response(p.scan, p.pc.job, results, false, p.begun));
  }

  lemma SettlingOther(env: Env, s: System, a: Action, t: System, pid: Id)
    requires Enabled(env, s, a) && t == Apply(env, s, a) && !Acts(a, pid) && Evolves(s, t) && Settling(s, pid)
    ensures Settling(t, pid)
  {
    hide Enabled, Apply, Acts, RecordsGrow, Store.Active;
    Untouched(env, s, a, pid);
  }

  lemma SettlingNext(env: Env, states: seq<System>, actions: seq<Action>, n: nat, pid: Id)
    requires Execution(env, states, actions) && Init(env, states[0]) && n < |actions| && Settling(states[n], pid)
    ensures pid in states[n + 1].procs ==> Settling(states[n + 1], pid)
    ensures Acts(actions[n], pid) ==> StillSettling(states[n], states[n + 1], pid)
  {
    hide Inv, Init, Enabled, Apply, Evolves, Settling, StillSettling;
    var s, a := states[n], actions[n];
    assert Enabled(env, s, a) && states[n + 1] == Apply(env, s, a);
    ReachableOk(env, states, actions, n);
    ReachableEvolves(env, states, actions, n, n + 1);
    if Acts(a, pid) {
      SettlingActs(env, s, a, pid);
    } else {
      SettlingOther(env, s, a, states[n + 1], pid);
    }
  }

  lemma SettlingActs(env: Env, s: System, a: Action, pid: Id)
    requires Inv(env, s) && Enabled(env, s, a) && Acts(a, pid) && Settling(s, pid)
    ensures StillSettling(s, Apply(env, s, a), pid)
    ensures pid in Apply(env, s, a).procs ==> Settling(Apply(env, s, a), pid)
  {
    hide Inv, CanProceed, ProceedStep, ArriveStep, HappenStep, CanHappen, ServingOk;
    SettlingServes(env, s, pid);
    if a.Proceed? {
      SettlingOwn(env, s, pid, a.step);
    }
  }

  lemma SettlingServes(env: Env, s: System, pid: Id)
    requires Inv(env, s) && Settling(s, pid)
    ensures pid in s.procs && s.procs[pid].scan in s.db.jobs
    ensures s.db.jobs[s.procs[pid].scan].owner == s.procs[pid].owner
  {
    hide Inv, ServingOk;
    PcOf(env, s, pid);
    ServingScan(env, s, s.procs[pid]);
  }

  lemma {:induction false} SettlingSince(env: Env, states: seq<System>, actions: seq<Action>, m: nat, n: nat, pid: Id)
    requires Execution(env, states, actions) && Init(env, states[0]) && OwnFetch(states, actions, m, n, pid)
    requires actions[m].step.outcome == Reached && pid in states[m].procs && states[m].procs[pid].pc.PollFetch?
    requires states[m].procs[pid].pc.scannerId !in states[m].engine.workers
    ensures Settling(states[n], pid)
    decreases n
  {
    hide Inv, Init, Enabled, Apply, Settling, StillSettling;
    if n == m + 1 {
      assert Enabled(env, states[m], actions[m]) && states[n] == Apply(env, states[m], actions[m]);
      ReachableOk(env, states, actions, m);
      FetchTaken(env, states[m], pid);
    } else {
      SettlingSince(env, states, actions, m, n - 1, pid);
      SettlingNext(env, states, actions, n - 1, pid);
    }
  }

  lemma FetchTaken(env: Env, s: System, pid: Id)
    requires Inv(env, s) && Enabled(env, s, Proceed(pid, Fetch(Reached)))
    requires pid in s.procs && s.procs[pid].pc.PollFetch? && s.procs[pid].pc.scannerId !in s.engine.workers
    ensures Settling(Apply(env, s, Proceed(pid, Fetch(Reached))), pid)
  {
    hide Inv, CanProceed, ProceedStep, Settling;
    SettlingFetch(env, s, pid);
  }

  // However the other requests interleave: once a poll has reached a scanner
  // whose job for the row is over or gone, its answer, if it comes to one, is
  // the row's last word.
  lemma SettledFetchesSettle(env: Env, states: seq<System>, actions: seq<Action>, m: nat, n: nat, pid: Id, r: Response)
    requires Execution(env, states, actions) && Init(env, states[0])
    requires OwnFetch(states, actions, m, n, pid) && Answers(states, actions, n, pid, r)
    requires actions[m].step.outcome == Reached && pid in states[m].procs && states[m].procs[pid].pc.PollFetch?
    requires states[m].procs[pid].pc.scannerId !in states[m].engine.workers
    ensures r.job.status in {COMPLETED, FAILED, BLOCKED}
    ensures r.scan in states[n + 1].db.jobs && states[n + 1].db.jobs[r.scan] == r.job
  {
    hide Inv, Init, Enabled, Apply, Settling, OwnFetch;
    SettlingSince(env, states, actions, m, n, pid);
    SettlingNext(env, states, actions, n, pid);
    ReachableOk(env, states, actions, n + 1);
    AnswerIsEarlierRow(env, states[n + 1], |states[n].responses|);
  }

  lemma AnswerIsEarlierRow(env: Env, s: System, i: nat)
    requires Inv(env, s) && i < |s.responses|
    ensures s.responses[i].scan in s.db.jobs && JobEvolves(s.responses[i].job, s.db.jobs[s.responses[i].scan])
  {
    hide JobsOk, ProcsOk, LocksOk, RoomOk, ScansDistinct, StrayOk, ClaimsOk, LinksOk, Go.EngineOk, JobEvolves;
    assert ResponseOk(s, i);
  }
}
