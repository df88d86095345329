// What a lease holder has told the scanner, followed through its program
// counter; and so what the lease under which a scan is blocked has told it:
// nothing.
module ProtocolFirstLease {
  import opened Collections
  import opened ScanTasks
  import opened ScanRecords
  import opened DispatchProtocol
  import opened ProtocolInvariant
  import opened ProtocolSteps
  import opened ProtocolQuiet
  import opened ProtocolSafety
  import Store = JobStore
  import Go = GoEngine

  // The lease token a request is working under.
  function Held(pc: Pc): Option<Id> {
    match pc
    case DispatchAuthorize(token) => Some(token)
    case DispatchAttach(token, _, _) => Some(token)
    case DispatchSend(attachment) => Some(attachment.token)
    case DispatchAwait(token) => Some(token)
    case DispatchMark(token, _) => Some(token)
    case DispatchFail(token, _, _) => Some(token)
    case _ => None
  }

  // A request holds a token from its claim until it records the outcome.
  lemma HeldIs(pc: Pc, token: Id)
    ensures Held(pc) == Some(token) <==>
      || ((pc.DispatchAuthorize? || pc.DispatchAttach? || pc.DispatchAwait? || pc.DispatchMark? || pc.DispatchFail?)
          && pc.token == token)
      || (pc.DispatchSend? && pc.attachment.token == token)
  {}

  predicate Unsent(pc: Pc) {
    pc.DispatchAuthorize? || pc.DispatchAttach? || pc.DispatchSend?
  }

  // No scanner job was created by a message under this token.
  ghost predicate Uncreated(s: System, token: Id) {
    forall g :: g in s.creators ==> s.creators[g].token != token
  }

  ghost predicate PcPhase(s: System, pc: Pc) {
    && (Held(pc).Some? ==> Held(pc).value in s.tokens)
    && (Unsent(pc) ==> Held(pc).value !in s.sent && Held(pc).value !in s.replies && Uncreated(s, Held(pc).value))
    && (pc.DispatchFail? && pc.blocked ==> pc.token !in s.sent && Uncreated(s, pc.token))
  }

  ghost predicate ProcsPhase(s: System) {
    && (forall p :: p in s.procs ==> PcPhase(s, s.procs[p].pc))
    && (forall p, q :: p in s.procs && q in s.procs && p != q && Held(s.procs[p].pc).Some? ==>
          Held(s.procs[p].pc) != Held(s.procs[q].pc))
  }

  // A message is handled once, and only then can it be answered.
  ghost predicate MessagesPhase(s: System) {
    && (forall k :: k in s.sent ==> k in s.tokens && k !in s.replies && Uncreated(s, k))
    && (forall k :: k in s.replies ==> k in s.tokens && (s.replies[k].BadRequest? ==> Uncreated(s, k)))
    && (forall g :: g in s.creators ==> s.creators[g].token in s.tokens)
  }

  ghost predicate NeverTold(s: System, token: Id) {
    token !in s.sent && Uncreated(s, token) && forall p :: p in s.procs ==> Held(s.procs[p].pc) != Some(token)
  }

  predicate BlockedClaimed(s: System, id: Id) {
    id in s.db.jobs && s.db.jobs[id].status == BLOCKED && id in s.claims && s.claims[id] != []
  }

  function LastClaim(s: System, id: Id): Id
    requires id in s.claims && s.claims[id] != []
  {
    s.claims[id][|s.claims[id]| - 1]
  }

  ghost predicate BlockedPhase(s: System) {
    && (forall id :: id in s.claims ==>
          id in s.db.jobs && forall i :: 0 <= i < |s.claims[id]| ==> s.claims[id][i] in s.tokens)
    && (forall id :: BlockedClaimed(s, id) ==>
          NeverTold(s, LastClaim(s, id)))
  }

  ghost predicate Phases(s: System) {
    ProcsPhase(s) && MessagesPhase(s) && BlockedPhase(s)
  }

  // ------------------------------------------------------------------- the frame

  ghost predicate SameMessages(s: System, t: System) {
    && t.sent == s.sent && t.replies == s.replies && t.creators == s.creators
    && t.tokens == s.tokens && t.claims == s.claims
  }

  // Only the request pid moves, and it keeps its token or gives it up.
  ghost predicate OneMoves(s: System, t: System, pid: Id) {
    && (forall q :: q in t.procs && q != pid ==> q in s.procs && t.procs[q].pc == s.procs[q].pc)
    && (pid in t.procs && Held(t.procs[pid].pc).Some? ==>
          pid in s.procs && Held(t.procs[pid].pc) == Held(s.procs[pid].pc) && PcPhase(t, t.procs[pid].pc))
  }

  ghost predicate NoneBlocked(s: System, t: System) {
    && s.db.jobs.Keys <= t.db.jobs.Keys
    && (forall id :: id in t.db.jobs && t.db.jobs[id].status == BLOCKED && id in t.claims ==>
          id in s.db.jobs && s.db.jobs[id].status == BLOCKED)
  }

  lemma MovesPhase(s: System, t: System, pid: Id)
    requires ProcsPhase(s) && MessagesPhase(s) && SameMessages(s, t) && OneMoves(s, t, pid)
    ensures ProcsPhase(t) && MessagesPhase(t)
  {
    forall p | p in t.procs ensures PcPhase(t, t.procs[p].pc) {
      if p != pid {
        assert PcPhase(s, s.procs[p].pc);
      }
    }
  }

  lemma NeverToldStays(s: System, t: System, pid: Id, token: Id)
    requires SameMessages(s, t) && OneMoves(s, t, pid) && NeverTold(s, token)
    ensures NeverTold(t, token)
  {}

  lemma QuietPhase(s: System, t: System, pid: Id)
    requires Phases(s) && SameMessages(s, t) && OneMoves(s, t, pid) && NoneBlocked(s, t)
    ensures Phases(t)
  {
    hide PcPhase, Uncreated, NeverTold;
    MovesPhase(s, t, pid);
    forall id | BlockedClaimed(t, id)
      ensures NeverTold(t, LastClaim(t, id))
    {
      NeverToldStays(s, t, pid, LastClaim(s, id));
    }
  }

  // ------------------------------------------------------- steps that tell nothing

  lemma MovePhase(s: System, pid: Id, pc: Pc)
    requires Phases(s) && pid in s.procs
    requires Held(pc).Some? ==> Held(pc) == Held(s.procs[pid].pc) && PcPhase(s, pc)
    ensures Phases(Move(s, pid, pc))
  {
    hide Phases, PcPhase;
    var t := Move(s, pid, pc);
    if Held(pc).Some? {
      SamePcPhase(s, t, pc);
    }
    QuietPhase(s, t, pid);
  }

  lemma SamePcPhase(s: System, t: System, pc: Pc)
    requires SameMessages(s, t) && PcPhase(s, pc)
    ensures PcPhase(t, pc)
  {}

  lemma DropPhase(s: System, t: System, pid: Id)
    requires Phases(s) && SameMessages(s, t) && t.procs == s.procs - {pid} && t.db == s.db
    ensures Phases(t)
  {
    hide Phases, PcPhase;
    QuietPhase(s, t, pid);
  }

  lemma AnswerPhase(s: System, pid: Id, job: Job)
    requires Phases(s) && pid in s.procs
    ensures Phases(Answer(s, pid, job))
  {
    hide Phases;
    if job.status == COMPLETED {
      MovePhase(s, pid, PollResults(job));
    } else {
      DropPhase(s, Respond(s, pid, job, map[], false), pid);
    }
  }

  lemma ArrivePhase(s: System, t: System, pid: Id)
    requires Phases(s) && SameMessages(s, t) && t.db == s.db && pid in t.procs && Held(t.procs[pid].pc).None?
    requires t.procs == s.procs[pid := t.procs[pid]]
    ensures Phases(t)
  {
    hide Phases, PcPhase;
    QuietPhase(s, t, pid);
  }

  lemma PollPhase(s: System, pid: Id, scan: Id)
    requires Phases(s) && pid !in s.procs && scan in s.db.jobs
    ensures Phases(BeginPollStep(s, pid, scan))
  {
    hide Phases, Answer, Move;
    var job := s.db.jobs[scan];
    var u := s.(procs := s.procs[pid := Proc(scan, job.owner, job.request, None, true, |s.responses|, s.clock, Ended)]);
    ArrivePhase(s, u, pid);
    if IsActive(job) && job.scannerId.Some? {
      MovePhase(u, pid, PollFetch(job.scannerId.value, job));
    } else if job.status == QUEUED {
      MovePhase(u, pid, DispatchClaim);
    } else {
      AnswerPhase(u, pid, job);
    }
  }

  // A pc the request may go to: it keeps the token or gives it up.
  ghost predicate MayGo(s: System, pid: Id, pc: Pc)
    requires pid in s.procs
  {
    Held(pc).Some? ==> Held(pc) == Held(s.procs[pid].pc) && PcPhase(s, pc)
  }

  // A write that blocks no row.
  lemma SettlePhase(s: System, t: System, pid: Id, w: Write, applied: Pc, skipped: Pc)
    requires Phases(s) && pid in s.procs && t == Settle(s, pid, w, applied, skipped)
    requires MayGo(s, pid, applied) && MayGo(s, pid, skipped)
    requires w.Applied? ==> NoneBlocked(s, s.(db := w.db))
    ensures Phases(t)
  {
    hide Phases, PcPhase;
    if pid in t.procs && Held(t.procs[pid].pc).Some? {
      SamePcPhase(s, t, t.procs[pid].pc);
    }
    QuietPhase(s, t, pid);
  }

  lemma PutBlocks(s: System, id: Id, j: Job, event: Option<AuditEvent>)
    requires j.status == BLOCKED ==> id !in s.claims
    ensures var w := Put(s.db, id, j, event); w.Applied? ==> NoneBlocked(s, s.(db := w.db))
  {
    hide RowChecks, ScannerIdUnique, EventAllowed;
  }

  lemma SynchronizePhase(s: System, pid: Id, at: Time)
    requires Phases(s) && pid in s.procs
    requires s.procs[pid].pc.PollSynchronize? || s.procs[pid].pc.PollFail? || s.procs[pid].pc == PollMismatch
    ensures Phases(SynchronizeStep(s, pid, at))
  {
    hide Phases, Put, NoneBlocked, Settle;
    var p := s.procs[pid];
    var t := SynchronizeStep(s, pid, at);
    match p.pc {
      case PollSynchronize(scannerId, answer) =>
        SynchronizeWriteBlocks(s, p, answer, at);
        SettlePhase(s, t, pid, SynchronizeWrite(s, p, answer, at), PollRefresh(false), PollRefresh(false));
      case PollFail(code) =>
        FailureBlocks(s, p.scan, p.owner, code, at);
        SettlePhase(s, t, pid, MarkSynchronizationFailed(s.db, p.scan, p.owner, code, at),
                    PollRefresh(true), PollRefresh(true));
      case _ =>
        FailureBlocks(s, p.scan, p.owner, InternalError, at);
        SettlePhase(s, t, pid, MarkSynchronizationFailed(s.db, p.scan, p.owner, InternalError, at), Ended, Ended);
    }
  }

  lemma FailureBlocks(s: System, scan: Id, owner: Subject, code: FailureCode, at: Time)
    ensures var w := MarkSynchronizationFailed(s.db, scan, owner, code, at);
      w.Applied? ==> NoneBlocked(s, s.(db := w.db))
  {
    hide Put, NoneBlocked;
    if scan in s.db.jobs {
      var j := s.db.jobs[scan];
      PutBlocks(s, scan, j.(status := FAILED, failure := Some(code), finishedAt := Some(at), updatedAt := at),
                Some(ServiceEvent(scan, owner, ScanFailed, Failure, Code(code), j.allowedTarget)));
    }
  }

  lemma SynchronizeWriteBlocks(s: System, p: Proc, answer: Store.ScanJob, at: Time)
    ensures var w := SynchronizeWrite(s, p, answer, at); w.Applied? ==> NoneBlocked(s, s.(db := w.db))
  {
    hide Put;
    FailureBlocks(s, p.scan, p.owner, ScannerFailed, at);
    if p.scan in s.db.jobs && answer.result.Some? {
      var j, result := s.db.jobs[p.scan], answer.result.value;
      PutBlocks(s, p.scan,
                j.(status := COMPLETED, duration := Some(result.duration), finishedAt := Some(at), updatedAt := at),
                Some(ServiceEvent(p.scan, p.owner, ScanCompleted, Success, Counts(|result.results|, result.duration),
                                  j.allowedTarget)));
    }
  }
  // ---------------------------------------------------------- admission steps

  lemma CommitPhase(env: Env, s: System, pid: Id)
    requires Phases(s) && pid in s.procs && s.procs[pid].pc.AdmitCommit?
    ensures Phases(CommitStep(env, s, pid))
  {
    hide Phases, Put, PcPhase;
    var p := s.procs[pid];
    var freed := Unlock(env, s, pid);
    var t := CommitStep(env, s, pid);
    FreedPhase(s, freed);
    if p.pc.admitted {
      var j := NewJob(p.owner, p.request, p.rule, p.since);
      PutBlocks(freed, p.scan, j, Some(RequestedEvent(p.scan, j)));
      SettlePhase(freed, t, pid, InsertQueued(s.db, p.scan, p.owner, p.request, p.rule, p.since), DispatchClaim, Ended);
    } else {
      DropPhase(freed, t, pid);
    }
  }

  lemma FreedPhase(s: System, t: System)
    requires Phases(s) && t == s.(locks := t.locks)
    ensures Phases(t)
  {
    hide Phases, PcPhase;
    forall p | p in s.procs && Held(s.procs[p].pc).Some? ensures PcPhase(t, t.procs[p].pc) {
      PhaseOf(s, p);
      SamePcPhase(s, t, s.procs[p].pc);
    }
    if p :| p in s.procs {
      QuietPhase(s, t, p);
    } else {
      QuietPhase(s, t, 0);
    }
  }

  lemma Parts(s: System)
    requires Phases(s)
    ensures ProcsPhase(s) && MessagesPhase(s) && BlockedPhase(s)
  {}

  lemma PhaseOf(s: System, p: Id)
    requires Phases(s) && p in s.procs
    ensures PcPhase(s, s.procs[p].pc)
  {
    hide MessagesPhase, BlockedPhase, PcPhase;
  }

  // ------------------------------------------------------------- dispatch steps

  // A token nobody has heard of.
  ghost predicate Fresh(s: System, token: Id) {
    && NeverTold(s, token) && token !in s.replies
    && (forall id :: BlockedClaimed(s, id) ==>
          LastClaim(s, id) != token)
  }

  ghost predicate Grown(s: System, u: System, token: Id, scan: Id) {
    && u == s.(tokens := s.tokens[token := scan], claims := u.claims)
    && (u.claims == s.claims ||
        (scan in s.db.jobs && s.db.jobs[scan].status == QUEUED
         && u.claims == s.claims[scan := (if scan in s.claims then s.claims[scan] else []) + [token]]))
  }

  lemma TokensGrow(s: System, u: System, token: Id, scan: Id)
    requires Phases(s) && token !in s.tokens && Grown(s, u, token, scan)
    ensures Phases(u) && Fresh(u, token)
  {
    hide Grown, ProcsPhase, MessagesPhase, BlockedPhase, NeverTold;
    TokensGrowProcs(s, u, token, scan);
    TokensGrowBlocked(s, u, token, scan);
  }

  lemma TokensGrowProcs(s: System, u: System, token: Id, scan: Id)
    requires ProcsPhase(s) && MessagesPhase(s) && token !in s.tokens && Grown(s, u, token, scan)
    ensures ProcsPhase(u) && MessagesPhase(u) && NeverTold(u, token) && token !in u.replies
  {
    forall p | p in s.procs ensures PcPhase(u, u.procs[p].pc) && Held(u.procs[p].pc) != Some(token) {
      assert PcPhase(s, s.procs[p].pc);
    }
  }

  lemma TokensGrowBlocked(s: System, u: System, token: Id, scan: Id)
    requires BlockedPhase(s) && token !in s.tokens && Grown(s, u, token, scan)
    ensures BlockedPhase(u)
    ensures forall id :: BlockedClaimed(u, id) ==>
      LastClaim(u, id) != token
  {
    forall id | BlockedClaimed(u, id)
      ensures NeverTold(u, LastClaim(u, id)) && LastClaim(u, id) != token
    {
      assert id in s.claims && u.claims[id] == s.claims[id];
      assert NeverTold(s, LastClaim(s, id));
    }
  }

  lemma AdoptPhase(s: System, t: System, pid: Id, token: Id)
    requires Phases(s) && Fresh(s, token) && token in s.tokens && pid in s.procs && Held(s.procs[pid].pc).None?
    requires t == s.(procs := s.procs[pid := s.procs[pid].(pc := DispatchAuthorize(token))])
    ensures Phases(t)
  {
    forall p | p in t.procs ensures PcPhase(t, t.procs[p].pc) {
      if p != pid {
        assert PcPhase(s, s.procs[p].pc);
      }
    }
    forall id | BlockedClaimed(t, id)
      ensures NeverTold(t, LastClaim(t, id))
    {
      assert NeverTold(s, LastClaim(s, id));
    }
  }

  lemma ClaimBlocks(s: System, scan: Id, token: Id, leaseSeconds: nat, at: Time)
    ensures var w := ClaimDispatch(s.db, scan, token, leaseSeconds, at);
      w.Applied? ==> NoneBlocked(s, s.(db := w.db)) && scan in s.db.jobs && s.db.jobs[scan].status == QUEUED
  {
    hide Put, NoneBlocked;
    if ClaimDispatch(s.db, scan, token, leaseSeconds, at).Applied? {
      PutBlocks(s, scan, s.db.jobs[scan].(leaseToken := Some(token), leaseExpires := Some(at + leaseSeconds),
                                          updatedAt := at), None);
    }
  }

  lemma ClaimPhase(env: Env, s: System, pid: Id, token: Id, at: Time)
    requires Phases(s) && pid in s.procs && s.procs[pid].pc == DispatchClaim && token !in s.tokens
    ensures Phases(ClaimStep(env, s, pid, token, at))
  {
    hide Phases, PcPhase, Fresh, ClaimDispatch, NoneBlocked, Settle;
    var p := s.procs[pid];
    var w := ClaimDispatch(s.db, p.scan, token, env.leaseSeconds, at);
    var earlier := if p.scan in s.claims then s.claims[p.scan] else [];
    var u := s.(tokens := s.tokens[token := p.scan],
                claims := if w.Applied? then s.claims[p.scan := earlier + [token]] else s.claims);
    ClaimBlocks(s, p.scan, token, env.leaseSeconds, at);
    TokensGrow(s, u, token, p.scan);
    ClaimWrites(u, pid, p.scan, token, w, env.leaseSeconds, at);
  }

  lemma ClaimWrites(u: System, pid: Id, scan: Id, token: Id, w: Write, leaseSeconds: nat, at: Time)
    requires Phases(u) && Fresh(u, token) && token in u.tokens && pid in u.procs && Held(u.procs[pid].pc).None?
    requires w == ClaimDispatch(u.db, scan, token, leaseSeconds, at)
    ensures Phases(Settle(u, pid, w, DispatchAuthorize(token), DispatchReturned))
  {
    hide Phases, PcPhase, Fresh, ClaimDispatch, NoneBlocked, Settle;
    var x := u.(procs := u.procs[pid := u.procs[pid].(pc := DispatchAuthorize(token))]);
    AdoptPhase(u, x, pid, token);
    PhaseOf(x, pid);
    ClaimBlocks(x, scan, token, leaseSeconds, at);
    ClaimTwice(u, x, pid, w, token);
    SettlePhase(x, Settle(x, pid, w, DispatchAuthorize(token), DispatchReturned), pid, w,
                DispatchAuthorize(token), DispatchReturned);
  }

  lemma ClaimTwice(u: System, x: System, pid: Id, w: Write, token: Id)
    requires pid in u.procs && x == u.(procs := u.procs[pid := u.procs[pid].(pc := DispatchAuthorize(token))])
    ensures Settle(u, pid, w, DispatchAuthorize(token), DispatchReturned)
      == Settle(x, pid, w, DispatchAuthorize(token), DispatchReturned)
  {}

  lemma AuthorizePhase(s: System, pid: Id, decision: Decision)
    requires Phases(s) && pid in s.procs && s.procs[pid].pc.DispatchAuthorize?
    ensures Phases(AuthorizeStep(s, pid, decision))
  {
    hide Phases, Move;
    PhaseOf(s, pid);
    var token := s.procs[pid].pc.token;
    match decision {
      case Grant(rule, pins) => MovePhase(s, pid, DispatchAttach(token, rule, pins));
      case Deny(code) => MovePhase(s, pid, DispatchFail(token, code, true));
    }
  }

  lemma AttachPhase(s: System, pid: Id, at: Time)
    requires Phases(s) && pid in s.procs && s.procs[pid].pc.DispatchAttach?
    ensures Phases(AttachStep(s, pid, at))
  {
    hide Phases, Settle, Put, NoneBlocked, Uncreated;
    PhaseOf(s, pid);
    var p := s.procs[pid];
    var t := AttachStep(s, pid, at);
    var w := AttachAllowedTarget(s.db, p.scan, p.pc.rule, p.pc.token, at);
    var failed := DispatchFail(p.pc.token, BlockedTarget, true);
    if w.Applied? {
      var attachment := Attachment(p.pc.token, p.scan, p.pc.rule, s.db.rules[p.pc.rule], at, p.pc.pins);
      var u := s.(attachments := s.attachments + {attachment});
      AttachmentPhase(s, u);
      PutBlocks(u, p.scan, s.db.jobs[p.scan].(allowedTarget := Some(p.pc.rule), updatedAt := at), None);
      SettlePhase(u, t, pid, w, DispatchSend(attachment), failed);
    } else {
      SettlePhase(s, t, pid, w, failed, failed);
    }
  }

  lemma AttachmentPhase(s: System, u: System)
    requires Phases(s) && u == s.(attachments := u.attachments)
    ensures Phases(u)
    ensures forall pc :: PcPhase(s, pc) ==> PcPhase(u, pc)
  {
    forall p | p in u.procs ensures PcPhase(u, u.procs[p].pc) {
      assert PcPhase(s, s.procs[p].pc);
    }
    forall id | BlockedClaimed(u, id)
      ensures NeverTold(u, LastClaim(u, id))
    {
      assert NeverTold(s, LastClaim(s, id));
    }
  }

  // The message goes out: until now its token was unheard of.
  lemma SendPhase(s: System, pid: Id)
    requires Phases(s) && pid in s.procs && s.procs[pid].pc.DispatchSend?
    ensures Phases(SendStep(s, pid))
  {
    hide ProcsPhase, MessagesPhase, BlockedPhase, SendStep;
    SendProcs(s, pid);
    SendBlocked(s, pid);
  }

  lemma SendProcs(s: System, pid: Id)
    requires ProcsPhase(s) && MessagesPhase(s) && pid in s.procs && s.procs[pid].pc.DispatchSend?
    ensures ProcsPhase(SendStep(s, pid)) && MessagesPhase(SendStep(s, pid))
  {
    var t := SendStep(s, pid);
    assert PcPhase(s, s.procs[pid].pc);
    forall p | p in t.procs ensures PcPhase(t, t.procs[p].pc) {
      assert PcPhase(s, s.procs[p].pc);
    }
  }

  lemma SendBlocked(s: System, pid: Id)
    requires BlockedPhase(s) && pid in s.procs && s.procs[pid].pc.DispatchSend?
    ensures BlockedPhase(SendStep(s, pid))
  {
    var t := SendStep(s, pid);
    forall id | BlockedClaimed(t, id)
      ensures NeverTold(t, LastClaim(t, id))
    {
      assert NeverTold(s, LastClaim(s, id));
    }
  }

  lemma ReceivePhase(env: Env, s: System, pid: Id)
    requires Phases(s) && LinksOk(env, s) && pid in s.procs && ServingOk(env, s, s.procs[pid])
    requires s.procs[pid].pc.DispatchAwait? && s.procs[pid].pc.token in s.replies
    ensures Phases(ReceiveStep(s, pid))
  {
    hide LinksOk, ServingOk, Move, ProcsPhase, BlockedPhase;
    var p := s.procs[pid];
    var token := p.pc.token;
    ReplyBelieved(env, s, p, token, s.replies[token]);
    assert token !in s.sent;
    MovePhase(s, pid, AfterReply(p, token, s.replies[token]));
  }

  lemma MisreadPhase(s: System, pid: Id)
    requires Phases(s) && pid in s.procs && s.procs[pid].pc.DispatchAwait?
    ensures Phases(Move(s, pid, DispatchFail(s.procs[pid].pc.token, InternalError, false)))
  {
    hide Phases, Move;
    PhaseOf(s, pid);
    MovePhase(s, pid, DispatchFail(s.procs[pid].pc.token, InternalError, false));
  }

  lemma RecordDispatchPhase(s: System, pid: Id, at: Time)
    requires Phases(s) && pid in s.procs && s.procs[pid].pc.DispatchMark?
    ensures Phases(RecordDispatchStep(s, pid, at))
  {
    hide Phases, Settle, Put, NoneBlocked, PcPhase;
    var p := s.procs[pid];
    var w := MarkDispatched(s.db, p.scan, p.owner, p.pc.scannerId, p.pc.token, at);
    if HoldsLease(s.db, p.scan, p.pc.token) {
      var j := s.db.jobs[p.scan];
      PutBlocks(s, p.scan, j.(scannerId := Some(p.pc.scannerId), status := RUNNING, startedAt := Some(at),
                              leaseToken := None, leaseExpires := None, updatedAt := at),
                Some(ServiceEvent(p.scan, p.owner, ScanStarted, Success, Empty, j.allowedTarget)));
    }
    SettlePhase(s, RecordDispatchStep(s, pid, at), pid, w, DispatchReturned, DispatchReturned);
  }

  // A dispatch that fails without blocking.
  lemma PlainFailurePhase(s: System, pid: Id, at: Time)
    requires Phases(s) && pid in s.procs && s.procs[pid].pc.DispatchFail? && !s.procs[pid].pc.blocked
    ensures Phases(RecordFailureStep(s, pid, at))
  {
    hide Phases, Settle, Put, NoneBlocked, PcPhase;
    var p := s.procs[pid];
    if HoldsLease(s.db, p.scan, p.pc.token) {
      var j := s.db.jobs[p.scan];
      PutBlocks(s, p.scan, j.(status := FAILED, failure := Some(p.pc.code), leaseToken := None, leaseExpires := None,
                              finishedAt := Some(at), updatedAt := at),
                Some(ServiceEvent(p.scan, p.owner, ScanFailed, Failure, Code(p.pc.code), j.allowedTarget)));
    }
    SettlePhase(s, RecordFailureStep(s, pid, at), pid,
                MarkDispatchFailed(s.db, p.scan, p.owner, p.pc.code, false, p.pc.token, at),
                DispatchReturned, DispatchReturned);
  }

  // The row that a refused dispatch blocks: under the lease it held, its last,
  // nothing was ever sent, or what was sent was turned down.
  lemma BlockingFailurePhase(s: System, pid: Id, at: Time)
    requires Phases(s) && JobsOk(s) && pid in s.procs && s.procs[pid].pc.DispatchFail? && s.procs[pid].pc.blocked
    ensures Phases(RecordFailureStep(s, pid, at))
  {
    hide Phases, JobsOk, ProcsPhase, MessagesPhase, BlockedPhase, MarkDispatchFailed, Settle, PcPhase;
    var p := s.procs[pid];
    var w := MarkDispatchFailed(s.db, p.scan, p.owner, p.pc.code, p.pc.blocked, p.pc.token, at);
    var t := RecordFailureStep(s, pid, at);
    FailedWrite(s, p.scan, p.owner, p.pc.code, p.pc.blocked, p.pc.token, at);
    var u := Move(s, pid, DispatchReturned);
    MovePhase(s, pid, DispatchReturned);
    Parts(s);
    GivenUp(s, pid, p.pc.token);
    SettleIs(s, pid, w, DispatchReturned);
    if w.Applied? {
      BlockedNow(u, u.(db := w.db), p.scan, p.pc.token);
    } else if w.Refused? {
      DropPhase(s, t, pid);
    }
  }

  lemma RecordFailurePhase(s: System, pid: Id, at: Time)
    requires Phases(s) && JobsOk(s) && pid in s.procs && s.procs[pid].pc.DispatchFail?
    ensures Phases(RecordFailureStep(s, pid, at))
  {
    hide Phases, JobsOk, RecordFailureStep;
    if s.procs[pid].pc.blocked {
      BlockingFailurePhase(s, pid, at);
    } else {
      PlainFailurePhase(s, pid, at);
    }
  }

  lemma SettleIs(s: System, pid: Id, w: Write, next: Pc)
    requires pid in s.procs
    ensures Settle(s, pid, w, next, next) ==
      match w
      case Applied(db) => Move(s, pid, next).(db := db)
      case Unchanged => Move(s, pid, next)
      case Refused => Drop(s.(refused := true), pid)
  {}

  lemma GivenUp(s: System, pid: Id, token: Id)
    requires ProcsPhase(s) && pid in s.procs && s.procs[pid].pc.DispatchFail? && s.procs[pid].pc.token == token
    requires s.procs[pid].pc.blocked
    ensures NeverTold(Move(s, pid, DispatchReturned), token)
  {
    assert PcPhase(s, s.procs[pid].pc);
    assert Held(s.procs[pid].pc) == Some(token);
  }

  lemma FailedWrite(s: System, scan: Id, owner: Subject, code: FailureCode, blocked: bool, token: Id, at: Time)
    requires JobsOk(s)
    ensures var w := MarkDispatchFailed(s.db, scan, owner, code, blocked, token, at);
      w.Applied? ==>
        && s.db.jobs.Keys <= w.db.jobs.Keys
        && (forall id :: id in w.db.jobs && id != scan ==> id in s.db.jobs && w.db.jobs[id] == s.db.jobs[id])
        && (scan in s.claims && s.claims[scan] != [] ==> LastClaim(s, scan) == token)
  {
    hide RowOk, HistoryOk, StoredOk, RowChecks, ScannerIdUnique, EventAllowed;
    if HoldsLease(s.db, scan, token) {
      assert JobOk(s, scan);
    }
  }

  lemma BlockedNowProcs(s: System, t: System)
    requires ProcsPhase(s) && MessagesPhase(s) && t == s.(db := t.db)
    ensures ProcsPhase(t) && MessagesPhase(t)
  {
    hide Unsent, Held;
    forall p | p in t.procs ensures PcPhase(t, t.procs[p].pc) {
      assert PcPhase(s, s.procs[p].pc);
    }
  }

  lemma BlockedNow(s: System, t: System, scan: Id, token: Id)
    requires Phases(s) && NeverTold(s, token) && t == s.(db := t.db)
    requires s.db.jobs.Keys <= t.db.jobs.Keys
    requires forall id :: id in t.db.jobs && id != scan ==> id in s.db.jobs && t.db.jobs[id] == s.db.jobs[id]
    requires scan in s.claims && s.claims[scan] != [] ==> LastClaim(s, scan) == token
    ensures Phases(t)
  {
    hide ProcsPhase, MessagesPhase, Held;
    BlockedNowProcs(s, t);
    forall id | BlockedClaimed(t, id) ensures NeverTold(t, LastClaim(t, id)) {
      if id != scan {
        assert NeverTold(s, LastClaim(s, id));
      }
    }
  }

  // ------------------------------------------------------------ around the API

  lemma WorldPhase(s: System, t: System)
    requires Phases(s) && SameMessages(s, t) && t.procs == s.procs && NoneBlocked(s, t)
    ensures Phases(t)
  {
    hide Phases, PcPhase, NoneBlocked;
    var pid := if s.procs == map[] then 0 else var p :| p in s.procs; p;
    if pid in s.procs {
      PhaseOf(s, pid);
      SamePcPhase(s, t, s.procs[pid].pc);
    }
    QuietPhase(s, t, pid);
  }

  // The one message of a token is used up and answered.
  ghost predicate HandledOnce(s: System, t: System, token: Id) {
    && token in s.sent && t.sent == s.sent - {token} && t.tokens == s.tokens && t.claims == s.claims
    && t.procs == s.procs && t.db == s.db
    && (forall k :: k in t.replies && k != token ==> k in s.replies && t.replies[k] == s.replies[k])
    && (forall g :: g in t.creators ==>
          (g in s.creators && t.creators[g] == s.creators[g]) || t.creators[g].token == token)
    && (token in t.replies && t.replies[token].BadRequest? ==> t.creators == s.creators)
  }

  lemma UncreatedStays(s: System, t: System, token: Id, other: Id)
    requires HandledOnce(s, t, token) && Uncreated(s, other) && other != token
    ensures Uncreated(t, other)
  {}

  lemma HandledProcs(s: System, t: System, token: Id)
    requires ProcsPhase(s) && HandledOnce(s, t, token)
    ensures ProcsPhase(t)
  {
    hide Uncreated;
    forall p | p in t.procs ensures PcPhase(t, t.procs[p].pc) {
      assert PcPhase(s, s.procs[p].pc);
      if Unsent(s.procs[p].pc) || (s.procs[p].pc.DispatchFail? && s.procs[p].pc.blocked) {
        UncreatedStays(s, t, token, Held(s.procs[p].pc).value);
      }
    }
  }

  lemma HandledMessages(s: System, t: System, token: Id)
    requires MessagesPhase(s) && HandledOnce(s, t, token)
    ensures MessagesPhase(t)
  {
    forall k | k in t.sent ensures Uncreated(t, k) {
      UncreatedStays(s, t, token, k);
    }
    forall k | k in t.replies && t.replies[k].BadRequest? ensures Uncreated(t, k) {
      if k != token {
        UncreatedStays(s, t, token, k);
      }
    }
  }

  lemma HandledBlocked(s: System, t: System, token: Id)
    requires BlockedPhase(s) && HandledOnce(s, t, token)
    ensures BlockedPhase(t)
  {
    hide Uncreated;
    forall id | BlockedClaimed(t, id)
      ensures NeverTold(t, LastClaim(t, id))
    {
      assert NeverTold(s, LastClaim(s, id));
      UncreatedStays(s, t, token, LastClaim(s, id));
    }
  }

  lemma HandlePhase(s: System, token: Id, verdict: Option<FailureCode>, scannerId: Id)
    requires Phases(s) && token in s.sent && s.sent[token].attachment.token == token
    ensures Phases(HandleStep(s, token, verdict, scannerId))
  {
    hide ProcsPhase, MessagesPhase, BlockedPhase, Go.Receive;
    var t := HandleStep(s, token, verdict, scannerId);
    assert HandledOnce(s, t, token);
    hide HandledOnce, HandleStep;
    HandledProcs(s, t, token);
    HandledMessages(s, t, token);
    HandledBlocked(s, t, token);
  }

  lemma BlockedInsert(db: Database, scan: Id, owner: Subject, request: ScanRequest, code: FailureCode,
                      matched: Option<Id>, at: Time)
    ensures var w := InsertBlocked(db, scan, owner, request, code, matched, at);
      w.Applied? ==> w.db.jobs == db.jobs[scan := BlockedJob(owner, request, code, matched, at)]
  {
    hide RowChecks, ScannerIdUnique, EventAllowed;
  }

  lemma AdmissionBlockPhase(env: Env, s: System, scan: Id, owner: Subject, request: ScanRequest, code: FailureCode,
                            matched: Option<Id>, at: Time)
    requires Phases(s) && Inv(env, s) && scan !in s.scans
    ensures var w := InsertBlocked(s.db, scan, owner, request, code, matched, at);
      Phases(if w.Applied? then s.(db := w.db, scans := s.scans + {scan}) else s.(refused := true))
  {
    hide Phases, Inv, InsertBlocked, PcPhase, BlockedJob;
    var w := InsertBlocked(s.db, scan, owner, request, code, matched, at);
    BlockedInsert(s.db, scan, owner, request, code, matched, at);
    NewScanUnclaimed(env, s, scan);
    var t := if w.Applied? then s.(db := w.db, scans := s.scans + {scan}) else s.(refused := true);
    WorldPhase(s, t);
  }

  lemma NewScanUnclaimed(env: Env, s: System, scan: Id)
    requires Phases(s) && Inv(env, s) && scan !in s.scans
    ensures scan !in s.db.jobs && scan !in s.claims
  {
    hide Inv, ProcsPhase, MessagesPhase, HistoryOk, StoredOk, LinkOk, RowChecks, NeverTold;
    if scan in s.db.jobs {
      RowIsOk(env, s, scan);
    }
  }

  lemma MessageToken(env: Env, s: System, token: Id)
    requires LinksOk(env, s) && token in s.sent
    ensures s.sent[token].attachment.token == token
  {
    hide AttachmentOk, ReplyOk, OriginOk;
    assert MessageOk(s, token);
  }

  // ------------------------------------------------------------------- all steps

  lemma EventPhase(env: Env, s: System, event: Event)
    requires Phases(s) && Inv(env, s) && CanHappen(s, event)
    ensures Phases(HappenStep(s, event))
  {
    hide Phases, Inv, Go.Start, Go.Finish, Go.Restart, InsertBlocked, HandleStep, Go.Possible, LinksOk, Go.EngineOk,
      JobsOk;
    match event
    case BlockAtAdmission(scan, owner, request, code, matched, at) =>
      AdmissionBlockPhase(env, s, scan, owner, request, code, matched, at);
    case HandleCreate(token, verdict, scannerId) =>
      LinksOf(env, s);
      MessageToken(env, s, token);
      HandlePhase(s, token, verdict, scannerId);
    case _ =>
      WorldPhase(s, HappenStep(s, event));
  }

  lemma FetchPhase(s: System, pid: Id, outcome: FetchOutcome)
    requires Phases(s) && pid in s.procs && s.procs[pid].pc.PollFetch?
    ensures Phases(FetchStep(s, pid, outcome))
  {
    hide Phases, Move;
    var p := s.procs[pid];
    match outcome {
      case Reached => MovePhase(s, pid, AfterFetch(s, p.pc.scannerId, p.pc.job));
      case Unreachable => MovePhase(s, pid, Ended);
      case Garbled => MovePhase(s, pid, PollFail(InternalError));
    }
  }

  lemma ReloadPhase(s: System, pid: Id)
    requires Phases(s) && pid in s.procs && s.procs[pid].scan in s.db.jobs
    ensures Phases(ReloadStep(s, pid))
  {
    hide Phases, Move, Answer;
    var job := s.db.jobs[s.procs[pid].scan];
    AnswerPhase(s, pid, job);
    if job.scannerId.Some? {
      MovePhase(s, pid, PollFetch(job.scannerId.value, job));
    }
  }

  lemma RefreshPhase(s: System, pid: Id)
    requires Phases(s) && pid in s.procs && s.procs[pid].pc.PollRefresh? && s.procs[pid].scan in s.db.jobs
    ensures Phases(RefreshStep(s, pid))
  {
    hide Phases, Answer, Respond;
    var job := s.db.jobs[s.procs[pid].scan];
    RespondPhase(s, pid, job, map[], true);
    AnswerPhase(s, pid, job);
  }

  lemma RespondPhase(s: System, pid: Id, job: Job, results: map<Endpoint, PortState>, failed: bool)
    requires Phases(s) && pid in s.procs
    ensures Phases(Respond(s, pid, job, results, failed))
  {
    hide Phases;
    DropPhase(s, Respond(s, pid, job, results, failed), pid);
  }

  // Admission steps touch neither rows nor messages.
  lemma AdmittingPhase(s: System, t: System, pid: Id)
    requires Phases(s) && pid in s.procs && pid in t.procs && Held(t.procs[pid].pc).None?
    requires SameMessages(s, t) && t.db == s.db && t.procs == s.procs[pid := t.procs[pid]]
    ensures Phases(t)
  {
    hide Phases, PcPhase;
    QuietPhase(s, t, pid);
  }

  lemma StopPhase(env: Env, s: System, pid: Id)
    requires Phases(s) && pid in s.procs
    ensures Phases(Drop(Unlock(env, s, pid), pid))
  {
    hide Phases;
    DropPhase(s, Drop(Unlock(env, s, pid), pid), pid);
  }

  lemma ProceedPhase(env: Env, s: System, pid: Id, step: Step)
    requires Phases(s) && Inv(env, s) && CanProceed(env, s, pid, step)
    ensures Phases(ProceedStep(env, s, pid, step))
  {
    hide Phases, Inv, ClaimStep, AuthorizeStep, AttachStep, SendStep, ReceiveStep, RecordDispatchStep,
      RecordFailureStep, ReloadStep, FetchStep, SynchronizeStep, RefreshStep, CommitStep, Respond, Move, Drop, Unlock,
      LinksOk, JobsOk, Go.EngineOk, ServingOk, RuleAdmits, ActiveOf;
    match step
    case TakeLock => AdmittingPhase(s, TakeLockStep(env, s, pid), pid);
    case CountActive => AdmittingPhase(s, CountStep(env, s, pid), pid);
    case InsertRow => AdmittingPhase(s, ProceedStep(env, s, pid, step), pid);
    case CommitAdmission => CommitPhase(env, s, pid);
    case Claim(token, at) => ClaimPhase(env, s, pid, token, at);
    case Authorize(decision, at) => AuthorizePhase(s, pid, decision);
    case Attach(at) => AttachPhase(s, pid, at);
    case SendCreate => SendPhase(s, pid);
    case ReceiveCreate =>
      LinksOf(env, s);
      PcOf(env, s, pid);
      ReceivePhase(env, s, pid);
    case GiveUp => MovePhase(s, pid, DispatchReturned);
    case Misread => MisreadPhase(s, pid);
    case RecordDispatch(at) => RecordDispatchPhase(s, pid, at);
    case RecordFailure(at) =>
      LinksOf(env, s);
      RecordFailurePhase(s, pid, at);
    case Reload => ReloadPhase(s, pid);
    case Fetch(outcome) => FetchPhase(s, pid, outcome);
    case Synchronize(at) => SynchronizePhase(s, pid, at);
    case Refresh => RefreshPhase(s, pid);
    case ReadResults => RespondPhase(s, pid, s.procs[pid].pc.job, ResultsOf(s.db, s.procs[pid].scan), false);
    case Stop => StopPhase(env, s, pid);
  }

  lemma StepPhase(env: Env, s: System, a: Action)
    requires Phases(s) && Inv(env, s) && Enabled(env, s, a)
    ensures Phases(Apply(env, s, a))
  {
    hide Phases, Inv, CanHappen, CanProceed, ProceedStep, HappenStep, BeginPollStep;
    match a
    case Arrive(pid, arrival) =>
      match arrival {
        case Admission(scan, owner, request, matched) => ArrivePhase(s, ArriveStep(s, pid, arrival), pid);
        case Poll(scan) => PollPhase(s, pid, scan);
      }
    case Proceed(pid, step) => ProceedPhase(env, s, pid, step);
    case Happen(event) => EventPhase(env, s, event);
  }

  lemma {:induction false} ReachablePhases(env: Env, states: seq<System>, actions: seq<Action>, n: nat)
    requires Execution(env, states, actions) && Init(env, states[0]) && n <= |actions|
    ensures Phases(states[n])
  {
    hide Inv, Enabled, Apply, Evolves;
    if n > 0 {
      hide Init, Phases;
      ReachablePhases(env, states, actions, n - 1);
      ReachableOk(env, states, actions, n - 1);
      StepPhase(env, states[n - 1], actions[n - 1]);
    }
  }

  // Nothing was ever attached to the scan but under its last claim.
  ghost predicate OnlyLastAttached(s: System, id: Id) {
    forall a :: a in s.attachments && a.scan == id ==>
      id in s.claims && s.claims[id] != [] && a.token == LastClaim(s, id)
  }

  // So a scan that is blocked, and to which no earlier lease holder had attached
  // a rule, has never been accepted by the scanner, and no message about it is
  // left. ProtocolContact.BlockedAfterContact says exactly when a blocked scan
  // has been accepted.
  lemma BlockedBeforeAnyContact(env: Env, states: seq<System>, actions: seq<Action>, n: nat, id: Id)
    requires Execution(env, states, actions) && Init(env, states[0]) && n <= |actions|
    requires id in states[n].db.jobs && states[n].db.jobs[id].status == BLOCKED && OnlyLastAttached(states[n], id)
    ensures forall g :: g in states[n].engine.origin ==> states[n].engine.origin[g].key != Some(id)
    ensures forall k :: k in states[n].sent ==> states[n].sent[k].scan != id
  {
    hide Inv, Init, Enabled, Apply, JobsOk, Go.EngineOk, Phases, RuleAdmits, ReplyOk, OnlyLastAttached;
    var s := states[n];
    ReachableOk(env, states, actions, n);
    ReachablePhases(env, states, actions, n);
    LinksOf(env, s);
    forall g | g in s.engine.origin ensures s.engine.origin[g].key != Some(id) {
      CreatorClaimed(env, s, g, id);
    }
    forall k | k in s.sent ensures s.sent[k].scan != id {
      SenderClaimed(env, s, k, id);
    }
  }

  // In particular a scan that is blocked under its first lease.
  lemma BlockedUnderTheFirstLease(env: Env, states: seq<System>, actions: seq<Action>, n: nat, id: Id)
    requires Execution(env, states, actions) && Init(env, states[0]) && n <= |actions|
    requires id in states[n].db.jobs && states[n].db.jobs[id].status == BLOCKED
    requires id in states[n].claims ==> |states[n].claims[id]| <= 1
    ensures forall g :: g in states[n].engine.origin ==> states[n].engine.origin[g].key != Some(id)
    ensures forall k :: k in states[n].sent ==> states[n].sent[k].scan != id
  {
    hide Inv, Init, Enabled, Apply, JobsOk, Go.EngineOk, RuleAdmits, ReplyOk, LinksOk;
    ReachableOk(env, states, actions, n);
    LinksOf(env, states[n]);
    FirstIsLast(env, states[n], id);
    BlockedBeforeAnyContact(env, states, actions, n, id);
  }

  lemma FirstIsLast(env: Env, s: System, id: Id)
    requires LinksOk(env, s) && (id in s.claims ==> |s.claims[id]| <= 1)
    ensures OnlyLastAttached(s, id)
  {
    hide RuleAdmits, ReplyOk, MessageOk, OriginOk;
    forall a | a in s.attachments && a.scan == id
      ensures id in s.claims && s.claims[id] != [] && a.token == LastClaim(s, id)
    {
      assert AttachmentOk(env, s, a);
    }
  }

  lemma CreatorClaimed(env: Env, s: System, g: Id, id: Id)
    requires LinksOk(env, s) && Phases(s) && g in s.engine.origin && OnlyLastAttached(s, id)
    requires id in s.db.jobs && s.db.jobs[id].status == BLOCKED
    ensures s.engine.origin[g].key != Some(id)
  {
    hide RuleAdmits, ReplyOk, MessageOk, AttachmentOk, ProcsPhase, MessagesPhase;
    assert OriginOk(s, g);
    assert BlockedClaimed(s, id) ==> NeverTold(s, LastClaim(s, id));
  }

  lemma SenderClaimed(env: Env, s: System, k: Id, id: Id)
    requires LinksOk(env, s) && Phases(s) && k in s.sent && OnlyLastAttached(s, id)
    requires id in s.db.jobs && s.db.jobs[id].status == BLOCKED
    ensures s.sent[k].scan != id
  {
    hide RuleAdmits, ReplyOk, OriginOk, AttachmentOk, ProcsPhase, MessagesPhase;
    assert MessageOk(s, k);
    assert BlockedClaimed(s, id) ==> NeverTold(s, LastClaim(s, id));
  }
}
