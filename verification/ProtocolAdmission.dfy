// The admission transaction, taken apart into lock, count, insert and commit,
// and the other ways in which a row is born.
module ProtocolAdmission {
  import opened Collections
  import opened ScanTasks
  import opened ScanRecords
  import opened DispatchProtocol
  import opened ProtocolInvariant
  import opened ProtocolSteps
  import Go = GoEngine

  // ----------------------------------------------------- steps that touch no row

  ghost predicate OthersSame(s: System, t: System, pid: Id) {
    && (forall q :: q in t.procs && q != pid ==> q in s.procs && t.procs[q] == s.procs[q])
    && (forall q :: q in s.procs && q != pid ==> q in t.procs)
  }

  ghost predicate LobbyStep(s: System, t: System, pid: Id) {
    t == s.(procs := t.procs, locks := t.locks, scans := t.scans) && s.scans <= t.scans && OthersSame(s, t, pid)
  }

  lemma LobbyStill(s: System, t: System, pid: Id)
    requires LobbyStep(s, t, pid)
    ensures RowsStill(s, t)
  {}

  lemma LobbyPreserves(env: Env, s: System, t: System, pid: Id)
    requires Inv(env, s) && LobbyStep(s, t, pid)
    requires LocksOk(env, t) && ScansDistinct(t) && RoomOk(env, t)
    requires pid in t.procs ==> ProcOk(env, t, t.procs[pid])
    ensures Keeps(env, s, t)
  {
    hide JobOk, SameJob, Evolves, LinksOk, LocksOk, RoomOk, ResponsesOk, ScansDistinct,
      StrayOk, ClaimsOk, NoNewActive, ServingOk, WaitingOk, RowsStill, Go.EngineOk, JobsOk, ProcsOk;
    LobbyStill(s, t, pid);
    RowsStillEvolves(s, t);
    RowsStillKeeps(s, t);
    RowsStillJobsOk(s, t);
    AllJobsOk(t);
    ResponsesFrame(s, t);
    LinksFrame(env, s, t);
    WaitersWait(env, s, t, pid);
    ProcsFrame(env, s, t, pid);
  }

  lemma AllJobsOk(t: System)
    requires forall id :: id in t.db.jobs ==> JobOk(t, id)
    ensures JobsOk(t)
  {
    hide JobOk;
  }

  lemma WaitersWait(env: Env, s: System, t: System, pid: Id)
    requires ProcsOk(env, s) && OthersSame(s, t, pid) && t.db == s.db
    ensures forall q :: q in t.procs && q != pid && Admitting(t.procs[q].pc) ==> t.procs[q].scan !in t.db.jobs
  {
    hide ServingOk;
    forall q | q in t.procs && q != pid && Admitting(t.procs[q].pc) ensures t.procs[q].scan !in t.db.jobs {
      assert ProcOk(env, s, s.procs[q]);
    }
  }

  lemma RoomSame(env: Env, s: System, t: System, pid: Id)
    requires RoomOk(env, s) && t.db == s.db && OthersSame(s, t, pid)
    requires pid in t.procs && Admitted(t.procs[pid].pc) ==> |ActiveOf(t.db, t.procs[pid].owner)| < env.ownerLimit
    ensures RoomOk(env, t)
  {}

  // A waiting request that stays one, with a later program counter.
  lemma WaiterMoves(env: Env, s: System, t: System, pid: Id, pc: Pc)
    requires ProcsOk(env, s) && pid in s.procs && Admitting(s.procs[pid].pc) && Admitting(pc)
    requires pid in t.procs && t.procs[pid] == s.procs[pid].(pc := pc) && LobbyStep(s, t, pid)
    ensures ProcOk(env, t, t.procs[pid])
  {
    hide ServingOk;
    assert ProcOk(env, s, s.procs[pid]);
  }

  lemma ArrivalPreserves(env: Env, s: System, pid: Id, scan: Id, owner: Subject, request: ScanRequest,
                         matched: Option<Id>)
    requires CanArrive(s, pid, Admission(scan, owner, request, matched)) && Inv(env, s)
    ensures Keeps(env, s, ArriveStep(s, pid, Admission(scan, owner, request, matched)))
  {
    hide JobsOk, LinksOk, ResponsesOk, StrayOk, ClaimsOk, Go.EngineOk, Evolves, ServingOk;
    var t := ArriveStep(s, pid, Admission(scan, owner, request, matched));
    forall q | q in s.procs && Admitting(s.procs[q].pc) ensures s.procs[q].scan in s.scans {
      assert ProcOk(env, s, s.procs[q]);
    }
    ScanFree(env, s, scan);
    assert LocksOk(env, t);
    assert ScansDistinct(t);
    RoomSame(env, s, t, pid);
    LobbyPreserves(env, s, t, pid);
  }

  // A scan id that was never handed out names no row.
  lemma ScanFree(env: Env, s: System, scan: Id)
    requires Inv(env, s) && scan !in s.scans
    ensures scan !in s.db.jobs
  {
    hide Inv, HistoryOk, StoredOk, LinkOk, JobOk;
    if scan in s.db.jobs {
      RowIsOk(env, s, scan);
    }
  }

  lemma TakenLocks(env: Env, s: System, pid: Id)
    requires LocksOk(env, s) && ScansDistinct(s) && CanProceed(env, s, pid, TakeLock)
    ensures LocksOk(env, TakeLockStep(env, s, pid)) && ScansDistinct(TakeLockStep(env, s, pid))
  {
    var t := TakeLockStep(env, s, pid);
    forall q | q in t.procs && HoldsLock(t.procs[q].pc) ensures Locked(env, t, q) {
      assert q == pid || Locked(env, s, q);
    }
  }

  lemma TakeLockPreserves(env: Env, s: System, pid: Id)
    requires CanProceed(env, s, pid, TakeLock) && Inv(env, s)
    ensures Keeps(env, s, ProceedStep(env, s, pid, TakeLock))
  {
    hide JobsOk, LinksOk, ResponsesOk, StrayOk, ClaimsOk, Go.EngineOk, Evolves, ProcOk, ProcsOk, LocksOk,
      ScansDistinct, RoomOk;
    var t := ProceedStep(env, s, pid, TakeLock);
    TakenLocks(env, s, pid);
    RoomSame(env, s, t, pid);
    WaiterMoves(env, s, t, pid, AdmitCount);
    LobbyPreserves(env, s, t, pid);
  }

  // Same lock, later program counter.
  lemma HolderMoves(env: Env, s: System, t: System, pid: Id, pc: Pc)
    requires LocksOk(env, s) && ScansDistinct(s) && LobbyStep(s, t, pid) && t.locks == s.locks
    requires pid in s.procs && HoldsLock(s.procs[pid].pc) && HoldsLock(pc)
    requires pid in t.procs && t.procs[pid] == s.procs[pid].(pc := pc)
    ensures LocksOk(env, t) && ScansDistinct(t)
  {
    forall q | q in t.procs && HoldsLock(t.procs[q].pc) ensures Locked(env, t, q) {
      assert Locked(env, s, q);
    }
  }

  lemma CountPreserves(env: Env, s: System, pid: Id)
    requires CanProceed(env, s, pid, CountActive) && Inv(env, s)
    ensures Keeps(env, s, ProceedStep(env, s, pid, CountActive))
  {
    hide JobsOk, LinksOk, ResponsesOk, StrayOk, ClaimsOk, Go.EngineOk, Evolves, ProcOk, ProcsOk, LocksOk, RoomOk,
      ScansDistinct;
    var t := ProceedStep(env, s, pid, CountActive);
    HolderMoves(env, s, t, pid, t.procs[pid].pc);
    RoomSame(env, s, t, pid);
    WaiterMoves(env, s, t, pid, t.procs[pid].pc);
    LobbyPreserves(env, s, t, pid);
  }

  lemma InsertRowPreserves(env: Env, s: System, pid: Id)
    requires CanProceed(env, s, pid, InsertRow) && Inv(env, s)
    ensures Keeps(env, s, ProceedStep(env, s, pid, InsertRow))
  {
    hide JobsOk, LinksOk, ResponsesOk, StrayOk, ClaimsOk, Go.EngineOk, Evolves, ProcOk, ProcsOk, LocksOk, ScansDistinct;
    var t := ProceedStep(env, s, pid, InsertRow);
    HolderMoves(env, s, t, pid, AdmitCommit(true));
    RoomSame(env, s, t, pid);
    WaiterMoves(env, s, t, pid, AdmitCommit(true));
    LobbyPreserves(env, s, t, pid);
  }

  // Leaving, by any door: the lock goes with its holder.
  lemma LeavingLocks(env: Env, s: System, t: System, pid: Id)
    requires LocksOk(env, s) && ScansDistinct(s) && pid in s.procs && OthersSame(s, t, pid)
    requires t.locks == Unlock(env, s, pid).locks && (pid in t.procs ==> !Admitting(t.procs[pid].pc))
    ensures LocksOk(env, t) && ScansDistinct(t)
  {
    hide LocksOk, HoldersLocked, KeysHeld;
    LocksTogether(env, s);
    LeavingHolders(env, s, t, pid);
    LeavingKeys(env, s, t, pid);
    LocksTogether(env, t);
  }

  ghost predicate HoldersLocked(env: Env, s: System) {
    forall pid :: pid in s.procs && HoldsLock(s.procs[pid].pc) ==> Locked(env, s, pid)
  }

  ghost predicate KeyHeld(env: Env, s: System, key: int)
    requires key in s.locks
  {
    && s.locks[key] in s.procs && HoldsLock(s.procs[s.locks[key]].pc)
    && env.lockKey(s.procs[s.locks[key]].owner) == key
  }

  ghost predicate KeysHeld(env: Env, s: System) {
    forall key :: key in s.locks ==> KeyHeld(env, s, key)
  }

  lemma LocksTogether(env: Env, s: System)
    ensures LocksOk(env, s) <==> HoldersLocked(env, s) && KeysHeld(env, s)
  {}

  lemma LeavingHolders(env: Env, s: System, t: System, pid: Id)
    requires LocksOk(env, s) && pid in s.procs && OthersSame(s, t, pid)
    requires t.locks == Unlock(env, s, pid).locks && (pid in t.procs ==> !Admitting(t.procs[pid].pc))
    ensures HoldersLocked(env, t)
  {
    forall q | q in t.procs && HoldsLock(t.procs[q].pc) ensures Locked(env, t, q) {
      assert q != pid && Locked(env, s, q);
    }
  }

  lemma LeavingKey(env: Env, s: System, t: System, pid: Id, key: int)
    requires pid in s.procs && OthersSame(s, t, pid) && t.locks == Unlock(env, s, pid).locks
    requires key in s.locks && KeyHeld(env, s, key) && key in t.locks
    ensures KeyHeld(env, t, key)
  {
    assert s.locks[key] != pid;
  }

  lemma LeavingKeys(env: Env, s: System, t: System, pid: Id)
    requires KeysHeld(env, s) && pid in s.procs && OthersSame(s, t, pid)
    requires t.locks == Unlock(env, s, pid).locks
    ensures KeysHeld(env, t)
  {
    hide KeyHeld, OthersSame;
    forall key | key in t.locks ensures KeyHeld(env, t, key) {
      LeavingKey(env, s, t, pid, key);
    }
  }

  lemma StopPreserves(env: Env, s: System, pid: Id)
    requires CanProceed(env, s, pid, Stop) && Inv(env, s)
    ensures Keeps(env, s, ProceedStep(env, s, pid, Stop))
  {
    hide JobsOk, LinksOk, ResponsesOk, StrayOk, ClaimsOk, Go.EngineOk, Evolves, ProcOk, ProcsOk, LocksOk, RoomOk,
      ScansDistinct;
    var t := ProceedStep(env, s, pid, Stop);
    LeavingLocks(env, s, t, pid);
    RoomSame(env, s, t, pid);
    LobbyPreserves(env, s, t, pid);
  }

  // ------------------------------------------------------------------- a row is born

  ghost predicate RowInserted(s: System, t: System, id: Id, events: seq<AuditEvent>) {
    && id !in s.db.jobs && id in t.db.jobs && t.db.jobs == s.db.jobs[id := t.db.jobs[id]]
    && t.db.audit == s.db.audit + events && (forall i :: 0 <= i < |events| ==> events[i].job == id)
    && t.db.rules == s.db.rules && t.db.results == s.db.results
    && t.clock == s.clock && s.scans <= t.scans && t.responses == s.responses && t.engine == s.engine
    && t.attachments == s.attachments && t.tokens == s.tokens && t.claims == s.claims
    && t.sent == s.sent && t.replies == s.replies && t.creators == s.creators && t.dials == s.dials
    && !t.refused
  }

  lemma {:induction false} EventsOfAppendAll(audit: seq<AuditEvent>, events: seq<AuditEvent>, id: Id, k: Id)
    requires forall i :: 0 <= i < |events| ==> events[i].job == id
    ensures EventsOf(audit + events, k) == if k == id then EventsOf(audit, k) + events else EventsOf(audit, k)
  {
    hide EventsOf;
    if events == [] {
      assert audit + events == audit;
    } else {
      var rest, last := events[..|events| - 1], events[|events| - 1];
      EventsOfAppendAll(audit, rest, id, k);
      EventsOfAppend(audit + rest, last, k);
      assert audit + events == (audit + rest) + [last];
      assert k == id ==> EventsOf(audit, k) + events == (EventsOf(audit, k) + rest) + [last];
    }
  }

  lemma InsertedLeavesOthers(s: System, t: System, id: Id, events: seq<AuditEvent>)
    requires RowInserted(s, t, id, events) && StrayOk(s)
    ensures forall other :: other in t.db.jobs && other != id ==> SameJob(s, t, other)
    ensures StrayOk(t) && EventsOf(t.db.audit, id) == events && ResultsOf(t.db, id) == map[]
  {
    hide EventsOf;
    forall k ensures EventsOf(t.db.audit, k) ==
      if k == id then EventsOf(s.db.audit, k) + events else EventsOf(s.db.audit, k)
    {
      EventsOfAppendAll(s.db.audit, events, id, k);
    }
    assert EventsOf(s.db.audit, id) + events == events;
  }

  lemma InsertedEvolves(s: System, t: System, id: Id, events: seq<AuditEvent>)
    requires RowInserted(s, t, id, events)
    ensures Evolves(s, t)
  {}

  lemma InsertPreserves(env: Env, s: System, t: System, pid: Id, id: Id, events: seq<AuditEvent>)
    requires Inv(env, s) && RowInserted(s, t, id, events) && OthersSame(s, t, pid) && JobOk(t, id)
    requires LocksOk(env, t) && ScansDistinct(t) && RoomOk(env, t)
    requires forall q :: q in t.procs && q != pid && Admitting(t.procs[q].pc) ==> t.procs[q].scan !in t.db.jobs
    requires pid in t.procs ==> ProcOk(env, t, t.procs[pid])
    ensures Keeps(env, s, t)
  {
    hide JobOk, SameJob, Evolves, LinksOk, LocksOk, RoomOk, ResponsesOk, ScansDistinct,
      StrayOk, ClaimsOk, ServingOk, WaitingOk, Go.EngineOk, JobsOk, ProcsOk;
    InsertedEvolves(s, t, id, events);
    InsertedLeavesOthers(s, t, id, events);
    JobsFrame(s, t, id);
    ResponsesFrame(s, t);
    LinksFrame(env, s, t);
    ProcsFrame(env, s, t, pid);
    ClaimsSame(s, t);
  }

  lemma ClaimsSame(s: System, t: System)
    requires ClaimsOk(s) && t.claims == s.claims && t.tokens == s.tokens
    ensures ClaimsOk(t)
  {}

  lemma FirstEventIsFree(audit: seq<AuditEvent>, e: AuditEvent)
    requires EventShape(e) && EventsOf(audit, e.job) == []
    ensures EventAllowed(audit, e)
  {
    hide EventsOf, EventShape, EventAllowed;
    AbsentActionIsFree(audit, e);
  }

  // --------------------------------------------------------------------- admission

  lemma QueuedApplies(s: System, p: Proc)
    requires StrayOk(s) && WaitingOk(s, p)
    ensures var j := NewJob(p.owner, p.request, p.rule, p.since);
      InsertQueued(s.db, p.scan, p.owner, p.request, p.rule, p.since)
        == Applied(s.db.(jobs := s.db.jobs[p.scan := j], audit := s.db.audit + [RequestedEvent(p.scan, j)]))
  {
    hide EventsOf, EventAllowed;
    FirstEventIsFree(s.db.audit, RequestedEvent(p.scan, NewJob(p.owner, p.request, p.rule, p.since)));
  }

  function CommittedState(env: Env, s: System, pid: Id): System
    requires pid in s.procs
  {
    var p := s.procs[pid];
    var j := NewJob(p.owner, p.request, p.rule, p.since);
    Move(Unlock(env, s, pid).(db := s.db.(jobs := s.db.jobs[p.scan := j],
                                          audit := s.db.audit + [RequestedEvent(p.scan, j)])),
         pid, DispatchClaim)
  }

  lemma CommittedShape(env: Env, s: System, pid: Id)
    requires pid in s.procs && s.procs[pid].scan !in s.db.jobs && !s.refused
    ensures var p, t := s.procs[pid], CommittedState(env, s, pid);
      var j := NewJob(p.owner, p.request, p.rule, p.since);
      RowInserted(s, t, p.scan, [RequestedEvent(p.scan, j)]) && t.db.jobs[p.scan] == j
  {}

  lemma CommittedRest(env: Env, s: System, pid: Id)
    requires pid in s.procs
    ensures var p, t := s.procs[pid], CommittedState(env, s, pid);
      && OthersSame(s, t, pid) && t.locks == Unlock(env, s, pid).locks && t.scans == s.scans
      && pid in t.procs && t.procs[pid] == p.(pc := DispatchClaim, since := s.clock)
  {}

  lemma NewRowOk(s: System, t: System, p: Proc)
    requires StrayOk(s) && WaitingOk(s, p)
    requires var j := NewJob(p.owner, p.request, p.rule, p.since);
      RowInserted(s, t, p.scan, [RequestedEvent(p.scan, j)]) && t.db.jobs[p.scan] == j
    ensures JobOk(t, p.scan)
  {
    hide EventsOf, ResultsOf;
    var j := NewJob(p.owner, p.request, p.rule, p.since);
    InsertedLeavesOthers(s, t, p.scan, [RequestedEvent(p.scan, j)]);
  }

  // The count was made under the lock, so one more row still fits; and nobody
  // else who counted for this owner can be about to insert, because the lock
  // has one holder.
  lemma RoomForOne(env: Env, s: System, t: System, pid: Id)
    requires RoomOk(env, s) && LocksOk(env, s) && pid in s.procs && s.procs[pid].pc == AdmitCommit(true)
    requires OthersSame(s, t, pid) && pid in t.procs && !Admitting(t.procs[pid].pc)
    requires s.procs[pid].scan !in s.db.jobs
    requires t.db.jobs == s.db.jobs[s.procs[pid].scan :=
      NewJob(s.procs[pid].owner, s.procs[pid].request, s.procs[pid].rule, s.procs[pid].since)]
    ensures RoomOk(env, t)
  {
    hide LocksOk, NewJob, ActiveOf;
    var p := s.procs[pid];
    forall owner ensures |ActiveOf(t.db, owner)| <= |ActiveOf(s.db, owner)| + (if owner == p.owner then 1 else 0) {
      OneMoreActive(s.db, t.db, p.scan, p.owner, p.request, p.rule, p.since, owner);
    }
    forall q | q in t.procs && Admitted(t.procs[q].pc) ensures |ActiveOf(t.db, t.procs[q].owner)| < env.ownerLimit {
      SoleHolder(env, s, pid, q);
    }
  }

  lemma OneMoreActive(a: Database, b: Database, scan: Id, holder: Subject, request: ScanRequest, rule: Option<Id>,
                      at: Time, owner: Subject)
    requires scan !in a.jobs && b.jobs == a.jobs[scan := NewJob(holder, request, rule, at)]
    ensures |ActiveOf(b, owner)| <= |ActiveOf(a, owner)| + (if owner == holder then 1 else 0)
  {
    if owner == holder {
      assert ActiveOf(b, owner) == ActiveOf(a, owner) + {scan};
    } else {
      assert ActiveOf(b, owner) == ActiveOf(a, owner);
    }
  }

  lemma SoleHolder(env: Env, s: System, p: Id, q: Id)
    requires LocksOk(env, s) && p in s.procs && q in s.procs && p != q
    requires HoldsLock(s.procs[p].pc) && HoldsLock(s.procs[q].pc)
    ensures s.procs[p].owner != s.procs[q].owner
    ensures env.lockKey(s.procs[p].owner) != env.lockKey(s.procs[q].owner)
  {
    assert Locked(env, s, p) && Locked(env, s, q);
  }

  lemma NobodyElseWaits(env: Env, s: System, t: System, pid: Id)
    requires ProcsOk(env, s) && ScansDistinct(s) && pid in s.procs && Admitting(s.procs[pid].pc)
    requires OthersSame(s, t, pid) && t.db.jobs.Keys == s.db.jobs.Keys + {s.procs[pid].scan}
    ensures forall q :: q in t.procs && q != pid && Admitting(t.procs[q].pc) ==> t.procs[q].scan !in t.db.jobs
  {
    hide ServingOk;
    forall q | q in t.procs && q != pid && Admitting(t.procs[q].pc) ensures t.procs[q].scan !in t.db.jobs {
      assert ProcOk(env, s, s.procs[q]);
    }
  }

  lemma WaiterOf(env: Env, s: System, pid: Id)
    requires ProcsOk(env, s) && pid in s.procs && Admitting(s.procs[pid].pc)
    ensures WaitingOk(s, s.procs[pid]) && s.procs[pid].scan !in s.db.jobs
  {
    hide ServingOk;
    assert ProcOk(env, s, s.procs[pid]);
  }

  lemma AdmittedServes(env: Env, s: System, t: System, p: Proc)
    requires WaitingOk(s, p) && t.clock == s.clock && t.responses == s.responses
    requires p.scan in t.db.jobs && t.db.jobs[p.scan] == NewJob(p.owner, p.request, p.rule, p.since)
    ensures ProcOk(env, t, p.(pc := DispatchClaim, since := s.clock))
  {}

  lemma CommittedPreserves(env: Env, s: System, pid: Id)
    requires pid in s.procs && s.procs[pid].pc == AdmitCommit(true) && Inv(env, s)
    ensures Keeps(env, s, CommittedState(env, s, pid))
  {
    hide JobOk, JobsOk, LinksOk, ResponsesOk, StrayOk, ClaimsOk, Go.EngineOk, Evolves, ProcOk, ProcsOk, LocksOk, RoomOk,
      ScansDistinct, OthersSame, RowInserted, WaitingOk, CommittedState;
    var p, t := s.procs[pid], CommittedState(env, s, pid);
    WaiterOf(env, s, pid);
    CommittedShape(env, s, pid);
    CommittedRest(env, s, pid);
    NewRowOk(s, t, p);
    LeavingLocks(env, s, t, pid);
    InsertedKeys(s, t, p);
    RoomForOne(env, s, t, pid);
    NobodyElseWaits(env, s, t, pid);
    AdmittedServes(env, s, t, p);
    InsertPreserves(env, s, t, pid, p.scan, [RequestedEvent(p.scan, NewJob(p.owner, p.request, p.rule, p.since))]);
  }

  lemma InsertedKeys(s: System, t: System, p: Proc)
    requires var j := NewJob(p.owner, p.request, p.rule, p.since);
      RowInserted(s, t, p.scan, [RequestedEvent(p.scan, j)]) && t.db.jobs[p.scan] == j
    ensures t.db.jobs == s.db.jobs[p.scan := NewJob(p.owner, p.request, p.rule, p.since)]
    ensures t.db.jobs.Keys == s.db.jobs.Keys + {p.scan} && p.scan in t.db.jobs
    ensures t.clock == s.clock && t.responses == s.responses
  {}

  lemma CommitStepIs(env: Env, s: System, pid: Id)
    requires pid in s.procs && s.procs[pid].pc == AdmitCommit(true) && StrayOk(s) && WaitingOk(s, s.procs[pid])
    ensures CommitStep(env, s, pid) == CommittedState(env, s, pid)
  {
    hide StrayOk, InsertQueued;
    QueuedApplies(s, s.procs[pid]);
  }

  lemma CommitPreserves(env: Env, s: System, pid: Id)
    requires CanProceed(env, s, pid, CommitAdmission) && Inv(env, s)
    ensures Keeps(env, s, ProceedStep(env, s, pid, CommitAdmission))
  {
    hide JobsOk, LinksOk, ResponsesOk, StrayOk, ClaimsOk, Go.EngineOk, Evolves, ProcOk, ProcsOk, LocksOk, RoomOk,
      ScansDistinct, WaitingOk, CommittedState, Keeps;
    if s.procs[pid].pc.admitted {
      WaiterOf(env, s, pid);
      CommitStepIs(env, s, pid);
      CommittedPreserves(env, s, pid);
    } else {
      StopPreserves(env, s, pid);
    }
  }

  // -------------------------------------------------------- blocked at the front door

  function BlockedEvents(id: Id, owner: Subject, j: Job, code: FailureCode): seq<AuditEvent> {
    [RequestedEvent(id, j), ServiceEvent(id, owner, ScanBlocked, Denied, Code(code), j.allowedTarget)]
  }

  lemma BlockedApplies(s: System, id: Id, owner: Subject, request: ScanRequest, code: FailureCode,
                       matched: Option<Id>, at: Time)
    requires StrayOk(s) && id !in s.db.jobs && ValidRange(request)
    requires matched.Some? ==> matched.value in s.db.rules
    ensures var j := BlockedJob(owner, request, code, matched, at);
      InsertBlocked(s.db, id, owner, request, code, matched, at)
        == Applied(s.db.(jobs := s.db.jobs[id := j], audit := s.db.audit + BlockedEvents(id, owner, j, code)))
  {
    hide EventsOf, EventAllowed;
    var j := BlockedJob(owner, request, code, matched, at);
    var events := BlockedEvents(id, owner, j, code);
    FirstEventIsFree(s.db.audit, events[0]);
    EventsOfAppend(s.db.audit, events[0], id);
    AbsentActionIsFree(s.db.audit + [events[0]], events[1]);
    assert (s.db.audit + [events[0]]) + [events[1]] == s.db.audit + events;
    assert s.db.jobs[id := j][id := j] == s.db.jobs[id := j];
  }

  lemma BlockedRowOk(s: System, t: System, id: Id, owner: Subject, request: ScanRequest, code: FailureCode,
                     matched: Option<Id>, at: Time)
    requires StrayOk(s) && ValidRange(request) && at <= s.clock && id in t.scans
    requires matched.Some? ==> matched.value in s.db.rules
    requires var j := BlockedJob(owner, request, code, matched, at);
      RowInserted(s, t, id, BlockedEvents(id, owner, j, code)) && t.db.jobs[id] == j
    ensures JobOk(t, id)
  {
    hide EventsOf, ResultsOf;
    var j := BlockedJob(owner, request, code, matched, at);
    InsertedLeavesOthers(s, t, id, BlockedEvents(id, owner, j, code));
    assert Actions(BlockedEvents(id, owner, j, code)) == LifeWord(j);
  }

  lemma BlockedRoom(env: Env, s: System, t: System, id: Id)
    requires RoomOk(env, s) && LocksOk(env, s) && ScansDistinct(s) && t.procs == s.procs && t.locks == s.locks
    requires id !in s.db.jobs && id in t.db.jobs && t.db.jobs == s.db.jobs[id := t.db.jobs[id]]
    requires !IsActive(t.db.jobs[id])
    ensures RoomOk(env, t) && LocksOk(env, t) && ScansDistinct(t)
  {
    forall owner ensures ActiveOf(t.db, owner) == ActiveOf(s.db, owner) {}
    forall q | q in t.procs && HoldsLock(t.procs[q].pc) ensures Locked(env, t, q) {
      assert Locked(env, s, q);
    }
  }

  lemma NobodyWaitsForFresh(env: Env, s: System, t: System, id: Id)
    requires ProcsOk(env, s) && id !in s.scans && t.procs == s.procs && t.db.jobs.Keys == s.db.jobs.Keys + {id}
    ensures forall q :: q in t.procs && Admitting(t.procs[q].pc) ==> t.procs[q].scan !in t.db.jobs
  {
    hide ServingOk;
    forall q | q in t.procs && Admitting(t.procs[q].pc) ensures t.procs[q].scan !in t.db.jobs {
      assert ProcOk(env, s, s.procs[q]);
    }
  }

  lemma BlockedShape(s: System, t: System, id: Id, j: Job, events: seq<AuditEvent>)
    requires id !in s.db.jobs && !s.refused && forall i :: 0 <= i < |events| ==> events[i].job == id
    requires t == s.(db := s.db.(jobs := s.db.jobs[id := j], audit := s.db.audit + events), scans := s.scans + {id})
    ensures RowInserted(s, t, id, events) && t.db.jobs[id] == j && id in t.scans
    ensures t.procs == s.procs && t.locks == s.locks && t.db.jobs.Keys == s.db.jobs.Keys + {id}
    ensures t.db.jobs == s.db.jobs[id := j]
  {}

  // An untouched request stays sound.
  lemma UntouchedOk(env: Env, s: System, t: System, pid: Id)
    requires ProcsOk(env, s) && Evolves(s, t) && pid in s.procs && pid in t.procs && t.procs[pid] == s.procs[pid]
    requires Admitting(t.procs[pid].pc) ==> t.procs[pid].scan !in t.db.jobs
    ensures ProcOk(env, t, t.procs[pid])
  {
    hide ServingOk, WaitingOk, Evolves;
    assert ProcOk(env, s, s.procs[pid]);
    if Admitting(t.procs[pid].pc) {
      WaitingStaysOk(s, t, t.procs[pid]);
    } else {
      ServingStaysOk(env, s, t, t.procs[pid]);
    }
  }

  lemma BlockPreserves(env: Env, s: System, id: Id, owner: Subject, request: ScanRequest, code: FailureCode,
                       matched: Option<Id>, at: Time)
    requires CanHappen(s, BlockAtAdmission(id, owner, request, code, matched, at)) && Inv(env, s)
    ensures Keeps(env, s, HappenStep(s, BlockAtAdmission(id, owner, request, code, matched, at)))
  {
    hide JobOk, JobsOk, LinksOk, ResponsesOk, StrayOk, ClaimsOk, Go.EngineOk, Evolves, ProcOk, ProcsOk, LocksOk, RoomOk,
      ScansDistinct, RowInserted, InsertBlocked;
    var j := BlockedJob(owner, request, code, matched, at);
    var events := BlockedEvents(id, owner, j, code);
    ScanFree(env, s, id);
    BlockedApplies(s, id, owner, request, code, matched, at);
    var t := HappenStep(s, BlockAtAdmission(id, owner, request, code, matched, at));
    BlockedShape(s, t, id, j, events);
    BlockedRowOk(s, t, id, owner, request, code, matched, at);
    BlockedRoom(env, s, t, id);
    NobodyWaitsForFresh(env, s, t, id);
    InsertedEvolves(s, t, id, events);
    if id in t.procs {
      UntouchedOk(env, s, t, id);
    }
    InsertPreserves(env, s, t, id, id, events);
  }
}
