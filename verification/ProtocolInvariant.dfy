// What holds in every reachable state of the dispatch protocol, and what no
// step ever undoes.
module ProtocolInvariant {
  import opened Collections
  import opened ScanTasks
  import opened ScanRecords
  import opened DispatchProtocol
  import Go = GoEngine

  // ------------------------------------------------------------------ job rows

  ghost predicate RowOk(s: System, id: Id)
    requires id in s.db.jobs
  {
    var j := s.db.jobs[id];
    && RowChecks(j) && ValidRange(j.request)
    && (j.startedAt.Some? <==> j.scannerId.Some?)
    && j.updatedAt <= s.clock && (j.startedAt.Some? ==> j.startedAt.value <= s.clock)
    && id in s.scans
    && (j.allowedTarget.Some? ==> j.allowedTarget.value in s.db.rules)
  }

  // The recorded scanner job was created for this very row.
  ghost predicate LinkOk(s: System, id: Id)
    requires id in s.db.jobs
  {
    var j := s.db.jobs[id];
    && (j.scannerId.Some? ==>
          j.scannerId.value in s.engine.origin && s.engine.origin[j.scannerId.value].key == Some(id))
    && (j.leaseToken.Some? ==>
          id in s.claims && |s.claims[id]| > 0 && s.claims[id][|s.claims[id]| - 1] == j.leaseToken.value)
  }

  ghost predicate HistoryOk(s: System, id: Id)
    requires id in s.db.jobs
  {
    EventsFit(EventsOf(s.db.audit, id), s.db.jobs[id], |ResultsOf(s.db, id)|)
  }

  // Results exist exactly for completed rows, and then one for every pinned
  // address and port of the scanner job that produced them.
  ghost predicate StoredOk(s: System, id: Id)
    requires id in s.db.jobs
  {
    var j := s.db.jobs[id];
    if j.status == COMPLETED then
      && j.scannerId.Some? && j.scannerId.value in s.engine.origin
      && FullResults(ResultsOf(s.db, id), s.engine.origin[j.scannerId.value].config)
    else ResultsOf(s.db, id) == map[]
  }

  ghost predicate FullResults(results: map<Endpoint, PortState>, config: ScanConfig) {
    && (forall e :: e in results <==> InScope(e, config))
    && |results| == |config.pins| * PortCount(config.request)
    && 1 <= |results| <= MAXIMUM_TARGET_ADDRESSES * MAXIMUM_PORTS
  }

  ghost predicate JobOk(s: System, id: Id)
    requires id in s.db.jobs
  {
    RowOk(s, id) && LinkOk(s, id) && HistoryOk(s, id) && StoredOk(s, id)
  }

  ghost predicate JobsOk(s: System) {
    forall id :: id in s.db.jobs ==> JobOk(s, id)
  }

  // Nothing is recorded about a job that does not exist.
  ghost predicate StrayOk(s: System) {
    forall id :: id !in s.db.jobs ==> EventsOf(s.db.audit, id) == [] && id !in s.db.results
  }

  // ------------------------------------------------------------------ requests

  predicate Admitting(pc: Pc) {
    pc == AdmitLock || pc == AdmitCount || pc == AdmitInsert || pc.AdmitCommit?
  }

  predicate HoldsLock(pc: Pc) {
    pc == AdmitCount || pc == AdmitInsert || pc.AdmitCommit?
  }

  predicate Admitted(pc: Pc) {
    pc == AdmitInsert || pc == AdmitCommit(true)
  }

  ghost predicate Claimed(s: System, scan: Id, token: Id) {
    && token in s.tokens && s.tokens[token] == scan
    && scan in s.claims && token in s.claims[scan]
  }

  // The part of a rule match that can never be withdrawn.
  ghost predicate RuleCovers(env: Env, rule: Rule, owner: Subject, request: ScanRequest) {
    && (rule.scope.Some? ==> rule.scope.value == owner)
    && (rule.ports.Some? ==> rule.ports.value.0 <= request.startPort && rule.ports.value.1 >= request.endPort)
    && env.covers(rule.target, request.target)
  }

  ghost predicate ScannerKnown(s: System, p: Proc)
    requires p.scan in s.db.jobs
  {
    var j := s.db.jobs[p.scan];
    j.scannerId.Some? && j.startedAt.Some? && j.startedAt.value <= p.since
  }

  // A row this poll has loaded: it has only moved on since, and it was no
  // older than anything an earlier poll had been told.
  ghost predicate Seen(s: System, p: Proc, job: Job)
    requires p.scan in s.db.jobs
  {
    && JobEvolves(job, s.db.jobs[p.scan])
    && (forall i :: 0 <= i < p.begun && i < |s.responses| && s.responses[i].scan == p.scan ==>
          JobEvolves(s.responses[i].job, job))
  }

  ghost predicate PcOk(env: Env, s: System, p: Proc)
    requires p.scan in s.db.jobs
  {
    match p.pc
    case DispatchAuthorize(token) => Claimed(s, p.scan, token)
    case DispatchAttach(token, rule, pins) =>
      && Claimed(s, p.scan, token) && ValidPins(pins)
      && rule in s.db.rules && RuleCovers(env, s.db.rules[rule], p.owner, p.request)
    case DispatchSend(attachment) => attachment in s.attachments && attachment.scan == p.scan
    case DispatchAwait(token) => token in s.tokens && s.tokens[token] == p.scan
    case DispatchMark(token, scannerId) =>
      scannerId in s.engine.origin && s.engine.origin[scannerId].key == Some(p.scan)
    case PollFetch(scannerId, job) =>
      ScannerKnown(s, p) && s.db.jobs[p.scan].scannerId == Some(scannerId) && Seen(s, p, job)
    case PollSynchronize(scannerId, answer) =>
      && ScannerKnown(s, p) && s.db.jobs[p.scan].scannerId == Some(scannerId)
      && scannerId in s.engine.origin && Go.WellShaped(answer, s.engine.origin[scannerId].config)
    case PollFail(code) => ScannerKnown(s, p)
    case PollMismatch => false
    case PollResults(job) => job.status == COMPLETED && Seen(s, p, job)
    case _ => true
  }

  ghost predicate ServingOk(env: Env, s: System, p: Proc) {
    && p.scan in s.db.jobs
    && s.db.jobs[p.scan].owner == p.owner && s.db.jobs[p.scan].request == p.request
    && s.db.jobs[p.scan].createdAt <= p.since <= s.clock
    && p.begun <= |s.responses|
    && PcOk(env, s, p)
  }

  ghost predicate WaitingOk(s: System, p: Proc) {
    && p.scan in s.scans && p.scan !in s.db.jobs
    && ValidRange(p.request) && p.since <= s.clock && p.begun <= |s.responses|
    && (p.rule.Some? ==> p.rule.value in s.db.rules)
  }

  ghost predicate ProcOk(env: Env, s: System, p: Proc) {
    if Admitting(p.pc) then WaitingOk(s, p) else ServingOk(env, s, p)
  }

  ghost predicate ProcsOk(env: Env, s: System) {
    forall pid :: pid in s.procs ==> ProcOk(env, s, s.procs[pid])
  }

  // ------------------------------------------------------------------ admission

  // Whoever is between lock and commit owns its lock; nobody else owns one.
  ghost predicate LocksOk(env: Env, s: System) {
    && (forall pid :: pid in s.procs && HoldsLock(s.procs[pid].pc) ==> Locked(env, s, pid))
    && (forall key :: key in s.locks ==>
          && s.locks[key] in s.procs && HoldsLock(s.procs[s.locks[key]].pc)
          && env.lockKey(s.procs[s.locks[key]].owner) == key)
  }

  ghost predicate ScansDistinct(s: System) {
    forall p, q :: p in s.procs && q in s.procs && p != q && Admitting(s.procs[p].pc) && Admitting(s.procs[q].pc) ==>
      s.procs[p].scan != s.procs[q].scan
  }

  // Nobody exceeds the limit, and whoever counted below it is still below it.
  ghost predicate RoomOk(env: Env, s: System) {
    && (forall owner :: |ActiveOf(s.db, owner)| <= env.ownerLimit)
    && (forall pid :: pid in s.procs && Admitted(s.procs[pid].pc) ==>
          |ActiveOf(s.db, s.procs[pid].owner)| < env.ownerLimit)
  }

  // ------------------------------------------------------------------- messages

  ghost predicate AttachmentOk(env: Env, s: System, a: Attachment) {
    && Claimed(s, a.scan, a.token)
    && a.scan in s.db.jobs
    && RuleAdmits(env, a.rule, s.db.jobs[a.scan].owner, s.db.jobs[a.scan].request, a.at)
    && ValidPins(a.pins)
  }

  ghost predicate MessageOk(s: System, token: Id)
    requires token in s.sent
  {
    var m := s.sent[token];
    && m.attachment in s.attachments && m.attachment.token == token && m.attachment.scan == m.scan
    && m.scan in s.db.jobs && m.config == ScanConfig(s.db.jobs[m.scan].request, m.attachment.pins)
  }

  // The scanner never answers with a conflict, and an accepted job belongs to
  // the public scan that asked.
  ghost predicate ReplyOk(s: System, token: Id)
    requires token in s.replies
  {
    && token in s.tokens && s.tokens[token] in s.db.jobs
    && match s.replies[token]
       case Accepted(scannerId, request) =>
         && scannerId in s.engine.origin && s.engine.origin[scannerId].key == Some(s.tokens[token])
         && request == s.db.jobs[s.tokens[token]].request
       case Conflicting => false
       case _ => true
  }

  // Every scanner job ever created was created by one attached dispatch.
  ghost predicate OriginOk(s: System, scannerId: Id)
    requires scannerId in s.engine.origin
  {
    && scannerId in s.creators && s.creators[scannerId] in s.attachments
    && var a := s.creators[scannerId];
       && a.scan in s.db.jobs
       && s.engine.origin[scannerId] == Go.Origin(Some(a.scan), ScanConfig(s.db.jobs[a.scan].request, a.pins))
  }

  ghost predicate LinksOk(env: Env, s: System) {
    && (forall a :: a in s.attachments ==> AttachmentOk(env, s, a))
    && (forall token :: token in s.sent ==> MessageOk(s, token))
    && (forall token :: token in s.replies ==> ReplyOk(s, token))
    && (forall g :: g in s.engine.origin ==> OriginOk(s, g))
    && (forall d :: d in s.dials ==> d.0 in s.engine.origin && d.1 in s.engine.origin[d.0].config.pins)
  }

  ghost predicate ClaimsOk(s: System) {
    forall scan :: scan in s.claims ==>
      && Distinct(s.claims[scan])
      && (forall i :: 0 <= i < |s.claims[scan]| ==> s.claims[scan][i] in s.tokens)
  }

  // ------------------------------------------------------------------ responses

  ghost predicate ResponseOk(s: System, i: nat)
    requires i < |s.responses|
  {
    var r := s.responses[i];
    && r.scan in s.db.jobs && r.begun <= i
    && JobEvolves(r.job, s.db.jobs[r.scan])
    && (forall k :: 0 <= k < r.begun && s.responses[k].scan == r.scan ==> JobEvolves(s.responses[k].job, r.job))
    && (r.job.status == COMPLETED && !r.failed ==> r.results == ResultsOf(s.db, r.scan))
    && (r.job.status != COMPLETED || r.failed ==> r.results == map[])
  }

  ghost predicate ResponsesOk(s: System) {
    forall i :: 0 <= i < |s.responses| ==> ResponseOk(s, i)
  }

  // ------------------------------------------------------------------- together

  ghost predicate Inv(env: Env, s: System) {
    && JobsOk(s) && StrayOk(s)
    && ProcsOk(env, s) && LocksOk(env, s) && ScansDistinct(s) && RoomOk(env, s)
    && LinksOk(env, s) && ClaimsOk(s) && ResponsesOk(s)
    && Go.EngineOk(s.engine)
    && !s.refused
  }

  // -------------------------------------------------------------- never undone

  predicate RuleEvolves(a: Rule, b: Rule) {
    b == a || b == a.(enabled := false)
  }

  ghost predicate RowsEvolve(s: System, t: System) {
    && (forall id :: id in s.db.jobs ==> id in t.db.jobs && JobEvolves(s.db.jobs[id], t.db.jobs[id]))
    && (forall id :: id in s.db.jobs && s.db.jobs[id].status == COMPLETED ==>
          ResultsOf(t.db, id) == ResultsOf(s.db, id))
  }

  ghost predicate RecordsGrow(s: System, t: System) {
    && s.clock <= t.clock
    && s.scans <= t.scans
    && s.attachments <= t.attachments
    && s.responses <= t.responses
    && (forall r :: r in s.db.rules ==> r in t.db.rules && RuleEvolves(s.db.rules[r], t.db.rules[r]))
    && (forall g :: g in s.engine.origin ==> g in t.engine.origin && t.engine.origin[g] == s.engine.origin[g])
    && (forall k :: k in s.tokens ==> k in t.tokens && t.tokens[k] == s.tokens[k])
    && (forall k :: k in s.claims ==> k in t.claims && s.claims[k] <= t.claims[k])
  }

  ghost predicate Evolves(s: System, t: System) {
    RowsEvolve(s, t) && RecordsGrow(s, t)
  }

  // What every step guarantees.
  ghost predicate Keeps(env: Env, s: System, t: System) {
    Inv(env, t) && Evolves(s, t)
  }

  lemma EvolvesReflexive(s: System)
    ensures Evolves(s, s)
  {}

  lemma RowsEvolveTransitive(a: System, b: System, c: System)
    requires RowsEvolve(a, b) && RowsEvolve(b, c)
    ensures RowsEvolve(a, c)
  {
    forall id | id in a.db.jobs
      ensures id in c.db.jobs && JobEvolves(a.db.jobs[id], c.db.jobs[id])
      ensures a.db.jobs[id].status == COMPLETED ==> ResultsOf(c.db, id) == ResultsOf(a.db, id)
    {
      assert id in b.db.jobs && JobEvolves(a.db.jobs[id], b.db.jobs[id]);
      JobEvolvesTransitive(a.db.jobs[id], b.db.jobs[id], c.db.jobs[id]);
    }
  }

  lemma RecordsGrowTransitive(a: System, b: System, c: System)
    requires RecordsGrow(a, b) && RecordsGrow(b, c)
    ensures RecordsGrow(a, c)
  {
    forall k | k in a.claims ensures k in c.claims && a.claims[k] <= c.claims[k] {
      assert k in b.claims && a.claims[k] <= b.claims[k] <= c.claims[k];
    }
    assert a.responses <= b.responses <= c.responses;
  }

  lemma EvolvesTransitive(a: System, b: System, c: System)
    requires Evolves(a, b) && Evolves(b, c)
    ensures Evolves(a, c)
  {
    hide RowsEvolve, RecordsGrow;
    RowsEvolveTransitive(a, b, c);
    RecordsGrowTransitive(a, b, c);
  }

  // ------------------------------------------------------------ frame reasoning

  // A row no step has touched.
  ghost predicate SameJob(s: System, t: System, id: Id) {
    && id in s.db.jobs && id in t.db.jobs && t.db.jobs[id] == s.db.jobs[id]
    && EventsOf(t.db.audit, id) == EventsOf(s.db.audit, id)
    && ResultsOf(t.db, id) == ResultsOf(s.db, id)
    && (id in s.claims ==> id in t.claims && t.claims[id] == s.claims[id])
  }

  lemma SameJobStaysOk(s: System, t: System, id: Id)
    requires id in s.db.jobs && JobOk(s, id) && SameJob(s, t, id) && Evolves(s, t)
    ensures JobOk(t, id)
  {
    hide RowChecks, EventsFit, FullResults, EventsOf, JobEvolves;
  }

  lemma JobsFrame(s: System, t: System, touched: Id)
    requires JobsOk(s) && Evolves(s, t)
    requires forall id :: id in t.db.jobs && id != touched ==> SameJob(s, t, id)
    requires touched in t.db.jobs ==> JobOk(t, touched)
    ensures JobsOk(t)
  {
    hide JobOk, SameJob, Evolves;
    forall id | id in t.db.jobs ensures JobOk(t, id) {
      if id != touched {
        assert SameJob(s, t, id);
        InSame(s, t, id);
        SameJobStaysOk(s, t, id);
      }
    }
  }

  lemma InSame(s: System, t: System, id: Id)
    requires SameJob(s, t, id)
    ensures id in s.db.jobs && id in t.db.jobs
  {}

  lemma SeenStays(s: System, t: System, p: Proc, job: Job)
    requires p.scan in s.db.jobs && p.begun <= |s.responses| && Seen(s, p, job) && Evolves(s, t)
    ensures p.scan in t.db.jobs && Seen(t, p, job)
  {
    JobEvolvesTransitive(job, s.db.jobs[p.scan], t.db.jobs[p.scan]);
  }

  lemma PcStaysOk(env: Env, s: System, t: System, p: Proc)
    requires p.scan in s.db.jobs && p.begun <= |s.responses| && PcOk(env, s, p) && Evolves(s, t)
    ensures p.scan in t.db.jobs && PcOk(env, t, p)
  {
    assert JobEvolves(s.db.jobs[p.scan], t.db.jobs[p.scan]);
    match p.pc
    case PollFetch(scannerId, job) => { SeenStays(s, t, p, job); }
    case PollResults(job) => { SeenStays(s, t, p, job); }
    case _ => {}
  }

  lemma ServingStaysOk(env: Env, s: System, t: System, p: Proc)
    requires ServingOk(env, s, p) && Evolves(s, t)
    ensures ServingOk(env, t, p)
  {
    hide PcOk;
    PcStaysOk(env, s, t, p);
    assert JobEvolves(s.db.jobs[p.scan], t.db.jobs[p.scan]);
  }

  lemma WaitingStaysOk(s: System, t: System, p: Proc)
    requires WaitingOk(s, p) && Evolves(s, t) && p.scan !in t.db.jobs
    ensures WaitingOk(t, p)
  {}

  // All requests but one are left alone, and no waiting one sees its row
  // inserted by somebody else.
  lemma ProcsFrame(env: Env, s: System, t: System, pid: Id)
    requires ProcsOk(env, s) && Evolves(s, t)
    requires forall q :: q in t.procs && q != pid ==> q in s.procs && t.procs[q] == s.procs[q]
    requires forall q :: q in t.procs && q != pid && Admitting(t.procs[q].pc) ==> t.procs[q].scan !in t.db.jobs
    requires pid in t.procs ==> ProcOk(env, t, t.procs[pid])
    ensures ProcsOk(env, t)
  {
    hide ServingOk, WaitingOk, Evolves;
    forall q | q in t.procs ensures ProcOk(env, t, t.procs[q]) {
      if q != pid {
        assert ProcOk(env, s, s.procs[q]);
        if Admitting(t.procs[q].pc) {
          WaitingStaysOk(s, t, t.procs[q]);
        } else {
          ServingStaysOk(env, s, t, t.procs[q]);
        }
      }
    }
  }

  lemma AttachmentStaysOk(env: Env, s: System, t: System, a: Attachment)
    requires AttachmentOk(env, s, a) && Evolves(s, t)
    ensures AttachmentOk(env, t, a)
  {
    assert JobEvolves(s.db.jobs[a.scan], t.db.jobs[a.scan]);
    assert s.claims[a.scan] <= t.claims[a.scan];
  }

  lemma MessageStaysOk(s: System, t: System, token: Id)
    requires token in s.sent && MessageOk(s, token) && Evolves(s, t)
    requires token in t.sent && t.sent[token] == s.sent[token]
    ensures MessageOk(t, token)
  {
    assert JobEvolves(s.db.jobs[s.sent[token].scan], t.db.jobs[s.sent[token].scan]);
  }

  lemma ReplyStaysOk(s: System, t: System, token: Id)
    requires token in s.replies && ReplyOk(s, token) && Evolves(s, t)
    requires token in t.replies && t.replies[token] == s.replies[token]
    ensures ReplyOk(t, token)
  {
    assert JobEvolves(s.db.jobs[s.tokens[token]], t.db.jobs[s.tokens[token]]);
  }

  lemma OriginStaysOk(s: System, t: System, g: Id)
    requires g in s.engine.origin && OriginOk(s, g) && Evolves(s, t)
    requires g in t.creators && t.creators[g] == s.creators[g]
    ensures g in t.engine.origin && OriginOk(t, g)
  {
    assert JobEvolves(s.db.jobs[s.creators[g].scan], t.db.jobs[s.creators[g].scan]);
  }

  // Links are facts about what has been recorded, so they last.
  lemma LinksFrame(env: Env, s: System, t: System)
    requires LinksOk(env, s) && Evolves(s, t)
    requires t.attachments == s.attachments && t.sent == s.sent && t.replies == s.replies
    requires t.creators == s.creators && t.engine.origin == s.engine.origin && t.dials == s.dials
    ensures LinksOk(env, t)
  {
    hide AttachmentOk, MessageOk, ReplyOk, Evolves;
    forall a | a in t.attachments ensures AttachmentOk(env, t, a) {
      AttachmentStaysOk(env, s, t, a);
    }
    forall token | token in t.sent ensures MessageOk(t, token) {
      MessageStaysOk(s, t, token);
    }
    forall token | token in t.replies ensures ReplyOk(t, token) {
      ReplyStaysOk(s, t, token);
    }
    forall g | g in t.engine.origin ensures OriginOk(t, g) {
      assert OriginOk(s, g);
      OriginStaysOk(s, t, g);
    }
  }

  lemma ResponseStaysOk(s: System, t: System, i: nat)
    requires i < |s.responses| && ResponseOk(s, i) && Evolves(s, t)
    ensures i < |t.responses| && t.responses[i] == s.responses[i] && ResponseOk(t, i)
  {
    var r := s.responses[i];
    JobEvolvesTransitive(r.job, s.db.jobs[r.scan], t.db.jobs[r.scan]);
  }

  lemma ResponsesFrame(s: System, t: System)
    requires ResponsesOk(s) && Evolves(s, t) && t.responses == s.responses
    ensures ResponsesOk(t)
  {
    hide ResponseOk, Evolves;
    forall i | 0 <= i < |t.responses| ensures ResponseOk(t, i) {
      ResponseStaysOk(s, t, i);
    }
  }

  // No step creates an active row without the lock.
  ghost predicate NoNewActive(s: System, t: System) {
    forall id :: id in t.db.jobs && IsActive(t.db.jobs[id]) ==>
      id in s.db.jobs && IsActive(s.db.jobs[id]) && s.db.jobs[id].owner == t.db.jobs[id].owner
  }

  lemma ActiveShrinks(s: System, t: System, owner: Subject)
    requires NoNewActive(s, t)
    ensures |ActiveOf(t.db, owner)| <= |ActiveOf(s.db, owner)|
  {
    SubsetSize(ActiveOf(t.db, owner), ActiveOf(s.db, owner));
  }

  lemma RoomFrame(env: Env, s: System, t: System, pid: Id)
    requires RoomOk(env, s) && NoNewActive(s, t)
    requires forall q :: q in t.procs && q != pid ==> q in s.procs && t.procs[q] == s.procs[q]
    requires pid in t.procs && Admitted(t.procs[pid].pc) ==> |ActiveOf(t.db, t.procs[pid].owner)| < env.ownerLimit
    ensures RoomOk(env, t)
  {
    hide NoNewActive;
    forall owner ensures |ActiveOf(t.db, owner)| <= env.ownerLimit {
      ActiveShrinks(s, t, owner);
    }
    forall q | q in t.procs && Admitted(t.procs[q].pc) ensures |ActiveOf(t.db, t.procs[q].owner)| < env.ownerLimit {
      if q != pid {
        ActiveShrinks(s, t, t.procs[q].owner);
      }
    }
  }

  // A request that has no part in admission moves on, appears or ends.
  ghost predicate Bystander(s: System, t: System, pid: Id) {
    && t.locks == s.locks
    && (forall q :: q in t.procs && q != pid ==> q in s.procs && t.procs[q] == s.procs[q])
    && (forall q :: q in s.procs && q != pid ==> q in t.procs)
    && (pid in s.procs ==> !Admitting(s.procs[pid].pc))
    && (pid in t.procs ==> !Admitting(t.procs[pid].pc))
  }

  lemma LocksFrame(env: Env, s: System, t: System, pid: Id)
    requires LocksOk(env, s) && ScansDistinct(s) && Bystander(s, t, pid)
    ensures LocksOk(env, t) && ScansDistinct(t)
  {
    forall q | q in t.procs && HoldsLock(t.procs[q].pc) ensures Locked(env, t, q) {
      assert q != pid && Locked(env, s, q);
    }
  }
}
