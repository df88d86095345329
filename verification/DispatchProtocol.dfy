// The durable dispatch protocol as one transition system: the committed
// database, the API's concurrent requests (each with a program counter), the
// scanner process, and the messages between them.
//
// A step is one database statement or committed transaction, one message, or
// one scanner event; the admission transaction is split into its lock, count,
// insert and commit. A statement carries the time at which its transaction
// began, which may lie before the moment it takes effect.
module DispatchProtocol {
  import opened Collections
  import opened ScanTasks
  import opened ScanRecords
  import Store = JobStore
  import Go = GoEngine
  import Contract = ScannerContract

  // Configuration and foreign code: how owners hash to advisory locks, and
  // which targets a rule covers.
  datatype Env = Env(
    lockKey: Subject -> int,
    covers: (RuleTarget, string) -> bool,
    leaseSeconds: nat,
    ownerLimit: nat,
    maxActive: nat,
    maxRetained: nat)

  datatype Pc =
    // insertQueuedScan
    | AdmitLock
    | AdmitCount
    | AdmitInsert
    | AdmitCommit(admitted: bool)
    // dispatchQueuedScan
    | DispatchClaim
    | DispatchAuthorize(token: Id)
    | DispatchAttach(token: Id, rule: Id, pins: seq<Address>)
    | DispatchSend(attachment: Attachment)
    | DispatchAwait(token: Id)
    | DispatchMark(token: Id, scannerId: Id)
    | DispatchFail(token: Id, code: FailureCode, blocked: bool)
    | DispatchReturned
    // getPersistedScanStatus
    | PollFetch(scannerId: Id, job: Job)
    | PollSynchronize(scannerId: Id, answer: Store.ScanJob)
    | PollFail(code: FailureCode)
    | PollMismatch
    | PollRefresh(failed: bool)
    | PollResults(job: Job)
    | Ended

  // One request being served. `since` is a time it has already seen, `begun`
  // how many polls had been answered when it started.
  datatype Proc = Proc(
    scan: Id,
    owner: Subject,
    request: ScanRequest,
    rule: Option<Id>,
    polling: bool,
    begun: nat,
    since: Time,
    pc: Pc)

  // History of attachAllowedTargetToDispatch: the rule as it stood then.
  datatype Attachment = Attachment(token: Id, scan: Id, ruleId: Id, rule: Rule, at: Time, pins: seq<Address>)

  // The attachment is history; the scanner sees the public id and the
  // configuration.
  datatype Message = Message(attachment: Attachment, scan: Id, config: ScanConfig)
  datatype Reply = Accepted(scannerId: Id, request: ScanRequest) | BadRequest(code: FailureCode) | Conflicting | Limited

  // What a poll told its caller; `failed` records that it left through the
  // branch that answers after the scanner reported a failure.
  datatype Response = Response(scan: Id, job: Job, results: map<Endpoint, PortState>, failed: bool, begun: nat)

  datatype System = System(
    clock: Time,
    db: Database,
    engine: Go.Engine,
    procs: map<Id, Proc>,
    locks: map<int, Id>,
    sent: map<Id, Message>,
    replies: map<Id, Reply>,
    // History.
    scans: set<Id>,
    tokens: map<Id, Id>,
    claims: map<Id, seq<Id>>,
    attachments: set<Attachment>,
    creators: map<Id, Attachment>,
    dials: set<(Id, Address)>,
    responses: seq<Response>,
    refused: bool)

  datatype Decision = Grant(rule: Id, pins: seq<Address>) | Deny(code: FailureCode)
  datatype FetchOutcome = Reached | Unreachable | Garbled

  // A request arrives, a request takes its next step, or something happens
  // around the API.
  datatype Arrival =
    | Admission(scan: Id, owner: Subject, request: ScanRequest, matched: Option<Id>)
    | Poll(polled: Id)

  datatype Step =
    | TakeLock
    | CountActive
    | InsertRow
    | CommitAdmission
    | Claim(token: Id, at: Time)
    | Authorize(decision: Decision, at: Time)
    | Attach(at: Time)
    | SendCreate
    | ReceiveCreate
    | GiveUp
    | Misread
    | RecordDispatch(at: Time)
    | RecordFailure(at: Time)
    | Reload
    | Fetch(outcome: FetchOutcome)
    | Synchronize(at: Time)
    | Refresh
    | ReadResults
    | Stop

  datatype Event =
    | Tick(elapsed: nat)
    | AddRule(rule: Id, value: Rule)
    | DisableRule(rule: Id)
    | BlockAtAdmission(scan: Id, owner: Subject, request: ScanRequest, code: FailureCode, matched: Option<Id>, at: Time)
    | HandleCreate(token: Id, verdict: Option<FailureCode>, scannerId: Id)
    | ScannerStart(scannerId: Id)
    | ScannerFinish(scannerId: Id, outcome: Go.Outcome)
    | ScannerDial(scannerId: Id, address: Address)
    | ScannerRestart

  datatype Action = Arrive(pid: Id, arrival: Arrival) | Proceed(pid: Id, step: Step) | Happen(event: Event)

  // ---------------------------------------------------------------- local moves

  function Move(s: System, pid: Id, pc: Pc): System
    requires pid in s.procs
  {
    s.(procs := s.procs[pid := s.procs[pid].(pc := pc, since := s.clock)])
  }

  function Drop(s: System, pid: Id): System {
    s.(procs := s.procs - {pid})
  }

  // A refused write rolls back and ends the request with an error.
  function Settle(s: System, pid: Id, w: Write, applied: Pc, skipped: Pc): System
    requires pid in s.procs
  {
    match w
    case Applied(db) => Move(s.(db := db), pid, applied)
    case Unchanged => Move(s, pid, skipped)
    case Refused => Drop(s.(refused := true), pid)
  }

  function Respond(s: System, pid: Id, job: Job, results: map<Endpoint, PortState>, failed: bool): System
    requires pid in s.procs
  {
    var p := s.procs[pid];
    Drop(s, pid).(responses := s.responses + [Response(p.scan, job, results, failed, p.begun)])
  }

  // What getPersistedScanStatus does with a row it has just loaded.
  function AfterLoad(s: System, pid: Id, job: Job): System
    requires pid in s.procs
  {
    if IsActive(job) && job.scannerId.Some? then Move(s, pid, PollFetch(job.scannerId.value, job))
    else if job.status == QUEUED then Move(s, pid, DispatchClaim)
    else Answer(s, pid, job)
  }

  function Answer(s: System, pid: Id, job: Job): System
    requires pid in s.procs
  {
    if job.status == COMPLETED then Move(s, pid, PollResults(job)) else Respond(s, pid, job, map[], false)
  }

  function Locked(env: Env, s: System, pid: Id): bool
    requires pid in s.procs
  {
    var key := env.lockKey(s.procs[pid].owner);
    key in s.locks && s.locks[key] == pid
  }

  function Unlock(env: Env, s: System, pid: Id): System
    requires pid in s.procs
  {
    if Locked(env, s, pid) then s.(locks := s.locks - {env.lockKey(s.procs[pid].owner)}) else s
  }

  function ReplyTo(answer: Store.Admission): Reply {
    match answer
    case Admitted(job, created) => Accepted(job.id, job.request)
    case Conflict => Conflicting
    case LimitReached => Limited
  }

  // createScannerJob's reading of a reply.
  function AfterReply(p: Proc, token: Id, reply: Reply): Pc {
    match reply
    case Accepted(scannerId, request) =>
      if request == p.request then DispatchMark(token, scannerId) else DispatchFail(token, InternalError, false)
    case BadRequest(code) => DispatchFail(token, code, code == BlockedTarget)
    case Conflicting => DispatchFail(token, InternalError, false)
    case Limited => DispatchReturned
  }

  // getScannerJob and scannerResponseMatchesJob on what the scanner holds.
  function AfterFetch(s: System, scannerId: Id, job: Job): Pc {
    if scannerId !in s.engine.store.jobs then PollFail(ScanNotFound)
    else
      var response := s.engine.store.jobs[scannerId];
      if response.id != scannerId || !Contract.ValidLifecycleShape(response) then PollFail(InternalError)
      else if !Contract.ResponseMatchesJob(job, scannerId, response) then PollMismatch
      else PollSynchronize(scannerId, response)
  }

  function SynchronizeWrite(s: System, p: Proc, answer: Store.ScanJob, at: Time): Write {
    match answer.status
    case Accepted => Unchanged
    case Running => Unchanged
    case Failed => MarkSynchronizationFailed(s.db, p.scan, p.owner, ScannerFailed, at)
    case Completed =>
      if answer.result.Some? then SynchronizeCompleted(s.db, p.scan, p.owner, answer.result.value, at) else Refused
  }

  // The rule match of loadNetworkTargetAuthorization and
  // loadHostnameAllowedTarget.
  predicate RuleAdmits(env: Env, rule: Rule, owner: Subject, request: ScanRequest, at: Time) {
    && rule.enabled
    && Unexpired(rule, at)
    && (rule.scope.Some? ==> rule.scope.value == owner)
    && (rule.ports.Some? ==> rule.ports.value.0 <= request.startPort && rule.ports.value.1 >= request.endPort)
    && env.covers(rule.target, request.target)
  }

  // ------------------------------------------------------------------ the steps

  ghost predicate CanArrive(s: System, pid: Id, arrival: Arrival) {
    && pid !in s.procs
    && match arrival
       case Admission(scan, owner, request, matched) =>
         scan !in s.scans && ValidRange(request) && (matched.Some? ==> matched.value in s.db.rules)
       case Poll(scan) => scan in s.db.jobs
  }

  ghost predicate CanHappen(s: System, event: Event) {
    match event
    case Tick(elapsed) => true
    case AddRule(rule, value) => rule !in s.db.rules
    case DisableRule(rule) => rule in s.db.rules && s.db.rules[rule].enabled
    case BlockAtAdmission(scan, owner, request, code, matched, at) =>
      && scan !in s.scans && ValidRange(request) && at <= s.clock
      && (matched.Some? ==> matched.value in s.db.rules)
    case HandleCreate(token, verdict, scannerId) => token in s.sent && scannerId !in s.engine.origin
    case ScannerStart(scannerId) => Go.Possible(s.engine, Go.Starting(scannerId, s.clock))
    case ScannerFinish(scannerId, outcome) => Go.Possible(s.engine, Go.Finishing(scannerId, outcome, s.clock))
    case ScannerDial(scannerId, address) =>
      && scannerId in s.engine.workers && s.engine.workers[scannerId].running
      && address in s.engine.workers[scannerId].config.pins
    case ScannerRestart => true
  }

  predicate CanProceed(env: Env, s: System, pid: Id, step: Step) {
    && pid in s.procs
    && var p := s.procs[pid];
       match step
       case TakeLock => p.pc == AdmitLock && env.lockKey(p.owner) !in s.locks
       case CountActive => p.pc == AdmitCount
       case InsertRow => p.pc == AdmitInsert
       case CommitAdmission => p.pc.AdmitCommit?
       case Claim(token, at) => p.pc == DispatchClaim && token !in s.tokens && p.since <= at <= s.clock
       case Authorize(decision, at) =>
         && p.pc.DispatchAuthorize? && p.since <= at <= s.clock
         && (decision.Grant? ==>
               && decision.rule in s.db.rules
               && RuleAdmits(env, s.db.rules[decision.rule], p.owner, p.request, at)
               && ValidPins(decision.pins))
       case Attach(at) => p.pc.DispatchAttach? && p.since <= at <= s.clock
       case SendCreate => p.pc.DispatchSend?
       case ReceiveCreate => p.pc.DispatchAwait? && p.pc.token in s.replies
       case GiveUp => p.pc.DispatchAwait?
       case Misread => p.pc.DispatchAwait?
       case RecordDispatch(at) => p.pc.DispatchMark? && p.since <= at <= s.clock
       case RecordFailure(at) => p.pc.DispatchFail? && p.since <= at <= s.clock
       case Reload => p.pc == DispatchReturned && p.polling && p.scan in s.db.jobs
       case Fetch(outcome) => p.pc.PollFetch?
       case Synchronize(at) =>
         (p.pc.PollSynchronize? || p.pc.PollFail? || p.pc == PollMismatch) && p.since <= at <= s.clock
       case Refresh => p.pc.PollRefresh? && p.scan in s.db.jobs
       case ReadResults => p.pc.PollResults?
       case Stop => true
  }

  function ArriveStep(s: System, pid: Id, arrival: Arrival): System
    requires CanArrive(s, pid, arrival)
  {
    match arrival
    case Admission(scan, owner, request, matched) =>
      s.(procs := s.procs[pid := Proc(scan, owner, request, matched, false, 0, s.clock, AdmitLock)],
         scans := s.scans + {scan})
    case Poll(scan) => BeginPollStep(s, pid, scan)
  }

  function HappenStep(s: System, event: Event): System
    requires CanHappen(s, event)
  {
    match event
    case Tick(elapsed) => s.(clock := s.clock + elapsed)
    case AddRule(rule, value) => s.(db := s.db.(rules := s.db.rules[rule := value]))
    case DisableRule(rule) => s.(db := s.db.(rules := s.db.rules[rule := s.db.rules[rule].(enabled := false)]))
    case BlockAtAdmission(scan, owner, request, code, matched, at) =>
      (match InsertBlocked(s.db, scan, owner, request, code, matched, at)
       case Applied(db) => s.(db := db, scans := s.scans + {scan})
       case _ => s.(refused := true))
    case HandleCreate(token, verdict, scannerId) => HandleStep(s, token, verdict, scannerId)
    case ScannerStart(scannerId) => s.(engine := Go.Start(s.engine, scannerId, s.clock))
    case ScannerFinish(scannerId, outcome) => s.(engine := Go.Finish(s.engine, scannerId, outcome, s.clock))
    case ScannerDial(scannerId, address) => s.(dials := s.dials + {(scannerId, address)})
    case ScannerRestart => s.(engine := Go.Restart(s.engine))
  }

  function ProceedStep(env: Env, s: System, pid: Id, step: Step): System
    requires CanProceed(env, s, pid, step)
  {
    match step
    case TakeLock => TakeLockStep(env, s, pid)
    case CountActive => CountStep(env, s, pid)
    case InsertRow => s.(procs := s.procs[pid := s.procs[pid].(pc := AdmitCommit(true))])
    case CommitAdmission => CommitStep(env, s, pid)
    case Claim(token, at) => ClaimStep(env, s, pid, token, at)
    case Authorize(decision, at) => AuthorizeStep(s, pid, decision)
    case Attach(at) => AttachStep(s, pid, at)
    case SendCreate => SendStep(s, pid)
    case ReceiveCreate => ReceiveStep(s, pid)
    case GiveUp => Move(s, pid, DispatchReturned)
    case Misread => Move(s, pid, DispatchFail(s.procs[pid].pc.token, InternalError, false))
    case RecordDispatch(at) => RecordDispatchStep(s, pid, at)
    case RecordFailure(at) => RecordFailureStep(s, pid, at)
    case Reload => ReloadStep(s, pid)
    case Fetch(outcome) => FetchStep(s, pid, outcome)
    case Synchronize(at) => SynchronizeStep(s, pid, at)
    case Refresh => RefreshStep(s, pid)
    case ReadResults => Respond(s, pid, s.procs[pid].pc.job, ResultsOf(s.db, s.procs[pid].scan), false)
    case Stop => Drop(Unlock(env, s, pid), pid)
  }

  ghost predicate Enabled(env: Env, s: System, a: Action) {
    match a
    case Arrive(pid, arrival) => CanArrive(s, pid, arrival)
    case Proceed(pid, step) => CanProceed(env, s, pid, step)
    case Happen(event) => CanHappen(s, event)
  }

  function Apply(env: Env, s: System, a: Action): System
    requires Enabled(env, s, a)
  {
    match a
    case Arrive(pid, arrival) => ArriveStep(s, pid, arrival)
    case Proceed(pid, step) => ProceedStep(env, s, pid, step)
    case Happen(event) => HappenStep(s, event)
  }

  // The transaction keeps the time at which it began.
  function TakeLockStep(env: Env, s: System, pid: Id): System
    requires pid in s.procs
  {
    var p := s.procs[pid];
    s.(locks := s.locks[env.lockKey(p.owner) := pid], procs := s.procs[pid := p.(pc := AdmitCount)])
  }

  function CountStep(env: Env, s: System, pid: Id): System
    requires pid in s.procs
  {
    var p := s.procs[pid];
    var admitted := |ActiveOf(s.db, p.owner)| < env.ownerLimit;
    s.(procs := s.procs[pid := p.(pc := if admitted then AdmitInsert else AdmitCommit(false))])
  }

  // Commit makes the row visible and releases the lock; an admitted request
  // then goes on to dispatch in the background, any other is over.
  function CommitStep(env: Env, s: System, pid: Id): System
    requires pid in s.procs && s.procs[pid].pc.AdmitCommit?
  {
    var p := s.procs[pid];
    var freed := Unlock(env, s, pid);
    if p.pc.admitted
    then Settle(freed, pid, InsertQueued(s.db, p.scan, p.owner, p.request, p.rule, p.since), DispatchClaim, Ended)
    else Drop(freed, pid)
  }

  function ClaimStep(env: Env, s: System, pid: Id, token: Id, at: Time): System
    requires pid in s.procs
  {
    var p := s.procs[pid];
    var w := ClaimDispatch(s.db, p.scan, token, env.leaseSeconds, at);
    var earlier := if p.scan in s.claims then s.claims[p.scan] else [];
    var t := s.(tokens := s.tokens[token := p.scan],
                claims := if w.Applied? then s.claims[p.scan := earlier + [token]] else s.claims);
    Settle(t, pid, w, DispatchAuthorize(token), DispatchReturned)
  }

  function AuthorizeStep(s: System, pid: Id, decision: Decision): System
    requires pid in s.procs && s.procs[pid].pc.DispatchAuthorize?
  {
    var token := s.procs[pid].pc.token;
    match decision
    case Grant(rule, pins) => Move(s, pid, DispatchAttach(token, rule, pins))
    case Deny(code) => Move(s, pid, DispatchFail(token, code, true))
  }

  function AttachStep(s: System, pid: Id, at: Time): System
    requires pid in s.procs && s.procs[pid].pc.DispatchAttach?
  {
    var p := s.procs[pid];
    var w := AttachAllowedTarget(s.db, p.scan, p.pc.rule, p.pc.token, at);
    var failed := DispatchFail(p.pc.token, BlockedTarget, true);
    if w.Applied? then
      var attachment := Attachment(p.pc.token, p.scan, p.pc.rule, s.db.rules[p.pc.rule], at, p.pc.pins);
      Settle(s.(attachments := s.attachments + {attachment}), pid, w, DispatchSend(attachment), failed)
    else
      Settle(s, pid, w, failed, failed)
  }

  function SendStep(s: System, pid: Id): System
    requires pid in s.procs && s.procs[pid].pc.DispatchSend?
  {
    var p := s.procs[pid];
    var attachment := p.pc.attachment;
    Move(s.(sent := s.sent[attachment.token := Message(attachment, p.scan, ScanConfig(p.request, attachment.pins))]),
         pid, DispatchAwait(attachment.token))
  }

  function ReceiveStep(s: System, pid: Id): System
    requires pid in s.procs && s.procs[pid].pc.DispatchAwait? && s.procs[pid].pc.token in s.replies
  {
    var token := s.procs[pid].pc.token;
    Move(s, pid, AfterReply(s.procs[pid], token, s.replies[token]))
  }

  // createScanHandler. `verdict` is what validation says; the reply may still
  // be lost, and the sender may already have given up.
  function HandleStep(s: System, token: Id, verdict: Option<FailureCode>, scannerId: Id): System
    requires token in s.sent
  {
    var m := s.sent[token];
    var t := s.(sent := s.sent - {token});
    if verdict.Some? then t.(replies := t.replies[token := BadRequest(verdict.value)])
    else
      var (engine, answer) := Go.Receive(s.engine, scannerId, m.config, Some(m.scan), s.clock);
      t.(engine := engine,
         replies := t.replies[token := ReplyTo(answer)],
         creators := if answer.Admitted? && answer.created then t.creators[scannerId := m.attachment] else t.creators)
  }

  function RecordDispatchStep(s: System, pid: Id, at: Time): System
    requires pid in s.procs && s.procs[pid].pc.DispatchMark?
  {
    var p := s.procs[pid];
    Settle(s, pid, MarkDispatched(s.db, p.scan, p.owner, p.pc.scannerId, p.pc.token, at),
           DispatchReturned, DispatchReturned)
  }

  function RecordFailureStep(s: System, pid: Id, at: Time): System
    requires pid in s.procs && s.procs[pid].pc.DispatchFail?
  {
    var p := s.procs[pid];
    Settle(s, pid, MarkDispatchFailed(s.db, p.scan, p.owner, p.pc.code, p.pc.blocked, p.pc.token, at),
           DispatchReturned, DispatchReturned)
  }

  function BeginPollStep(s: System, pid: Id, scan: Id): System
    requires scan in s.db.jobs
  {
    var job := s.db.jobs[scan];
    var p := Proc(scan, job.owner, job.request, None, true, |s.responses|, s.clock, Ended);
    AfterLoad(s.(procs := s.procs[pid := p]), pid, job)
  }

  // After a recovery dispatch the row is loaded again and is not dispatched a
  // second time.
  function ReloadStep(s: System, pid: Id): System
    requires pid in s.procs && s.procs[pid].scan in s.db.jobs
  {
    var job := s.db.jobs[s.procs[pid].scan];
    if job.scannerId.Some? then Move(s, pid, PollFetch(job.scannerId.value, job)) else Answer(s, pid, job)
  }

  function FetchStep(s: System, pid: Id, outcome: FetchOutcome): System
    requires pid in s.procs && s.procs[pid].pc.PollFetch?
  {
    match outcome
    case Reached => Move(s, pid, AfterFetch(s, s.procs[pid].pc.scannerId, s.procs[pid].pc.job))
    case Unreachable => Move(s, pid, Ended)
    case Garbled => Move(s, pid, PollFail(InternalError))
  }

  function SynchronizeStep(s: System, pid: Id, at: Time): System
    requires pid in s.procs
    requires s.procs[pid].pc.PollSynchronize? || s.procs[pid].pc.PollFail? || s.procs[pid].pc == PollMismatch
  {
    var p := s.procs[pid];
    match p.pc
    case PollSynchronize(scannerId, answer) =>
      Settle(s, pid, SynchronizeWrite(s, p, answer, at), PollRefresh(false), PollRefresh(false))
    case PollFail(code) =>
      Settle(s, pid, MarkSynchronizationFailed(s.db, p.scan, p.owner, code, at), PollRefresh(true), PollRefresh(true))
    case _ =>
      Settle(s, pid, MarkSynchronizationFailed(s.db, p.scan, p.owner, InternalError, at), Ended, Ended)
  }

  // After a failure the answer is built at once, with an empty result list.
  function RefreshStep(s: System, pid: Id): System
    requires pid in s.procs && s.procs[pid].pc.PollRefresh? && s.procs[pid].scan in s.db.jobs
  {
    var job := s.db.jobs[s.procs[pid].scan];
    if s.procs[pid].pc.failed then Respond(s, pid, job, map[], true) else Answer(s, pid, job)
  }

  // ------------------------------------------------------------------------ runs

  ghost predicate Init(env: Env, s: System) {
    && s.db.jobs == map[] && s.db.results == map[] && s.db.audit == []
    && s.engine == Go.NewEngine(env.maxActive, env.maxRetained)
    && s.procs == map[] && s.locks == map[] && s.sent == map[] && s.replies == map[]
    && s.scans == {} && s.tokens == map[] && s.claims == map[] && s.attachments == {}
    && s.creators == map[] && s.dials == {} && s.responses == [] && !s.refused
  }

  ghost predicate Execution(env: Env, states: seq<System>, actions: seq<Action>) {
    && |states| == |actions| + 1
    && (forall i :: 0 <= i < |actions| ==>
          Enabled(env, states[i], actions[i]) && states[i + 1] == Apply(env, states[i], actions[i]))
  }
}
