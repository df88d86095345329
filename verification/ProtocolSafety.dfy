// What the dispatch protocol guarantees, over every execution: any number of
// requests, any interleaving, lost and delayed messages, expired leases,
// crashed requests, scanner evictions and scanner restarts.
module ProtocolSafety {
  import opened Collections
  import opened ScanTasks
  import opened ScanRecords
  import opened Constraints
  import opened DispatchProtocol
  import opened ProtocolInvariant
  import opened ProtocolSteps
  import opened ProtocolQuiet
  import opened ProtocolWrites
  import opened ProtocolSync
  import opened ProtocolLeases
  import opened ProtocolAdmission
  import opened ProtocolWorld
  import Store = JobStore
  import Go = GoEngine

  // ------------------------------------------------------------------ induction

  lemma ProceedPreserves(env: Env, s: System, pid: Id, step: Step)
    requires CanProceed(env, s, pid, step) && Inv(env, s)
    ensures Keeps(env, s, ProceedStep(env, s, pid, step))
  {
    hide *;
    match step
    case TakeLock => TakeLockPreserves(env, s, pid);
    case CountActive => CountPreserves(env, s, pid);
    case InsertRow => InsertRowPreserves(env, s, pid);
    case CommitAdmission => CommitPreserves(env, s, pid);
    case Claim(token, at) => ClaimPreserves(env, s, pid, token, at);
    case Authorize(decision, at) => AuthorizePreserves(env, s, pid, decision, at);
    case Attach(at) => AttachPreserves(env, s, pid, at);
    case SendCreate => SendPreserves(env, s, pid);
    case ReceiveCreate => ReceivePreserves(env, s, pid);
    case GiveUp => GiveUpPreserves(env, s, pid);
    case Misread => MisreadPreserves(env, s, pid);
    case RecordDispatch(at) => RecordDispatchPreserves(env, s, pid, at);
    case RecordFailure(at) => RecordFailurePreserves(env, s, pid, at);
    case Reload => ReloadPreserves(env, s, pid);
    case Fetch(outcome) => FetchPreserves(env, s, pid, outcome);
    case Synchronize(at) => SynchronizePreserves(env, s, pid, at);
    case Refresh => RefreshPreserves(env, s, pid);
    case ReadResults => ReadResultsPreserves(env, s, pid);
    case Stop => StopPreserves(env, s, pid);
  }

  lemma StepPreserves(env: Env, s: System, a: Action)
    requires Enabled(env, s, a) && Inv(env, s)
    ensures Keeps(env, s, Apply(env, s, a))
  {
    hide Inv, Evolves, CanArrive, CanHappen, CanProceed, ProceedStep, HappenStep, BeginPollStep;
    match a
    case Arrive(pid, arrival) =>
      match arrival {
        case Admission(scan, owner, request, matched) => ArrivalPreserves(env, s, pid, scan, owner, request, matched);
        case Poll(scan) => PollArrivalPreserves(env, s, pid, scan);
      }
    case Proceed(pid, step) => ProceedPreserves(env, s, pid, step);
    case Happen(event) => HappenPreserves(env, s, event);
  }

  lemma InitOk(env: Env, s: System)
    requires Init(env, s)
    ensures Inv(env, s)
  {
    Go.NewEngineOk(env.maxActive, env.maxRetained);
    forall owner ensures ActiveOf(s.db, owner) == {} {}
  }

  lemma {:induction false} ReachableOk(env: Env, states: seq<System>, actions: seq<Action>, n: nat)
    requires Execution(env, states, actions) && Init(env, states[0]) && n <= |actions|
    ensures Inv(env, states[n])
  {
    hide Inv, Init, Enabled, Apply, Evolves;
    if n == 0 {
      InitOk(env, states[0]);
    } else {
      ReachableOk(env, states, actions, n - 1);
      StepPreserves(env, states[n - 1], actions[n - 1]);
    }
  }

  lemma {:induction false} ReachableEvolves(env: Env, states: seq<System>, actions: seq<Action>, i: nat, n: nat)
    requires Execution(env, states, actions) && Init(env, states[0]) && i <= n <= |actions|
    ensures Evolves(states[i], states[n])
  {
    hide Inv, Init, Enabled, Apply, Evolves;
    if n == i {
      EvolvesReflexive(states[i]);
    } else {
      ReachableEvolves(env, states, actions, i, n - 1);
      ReachableOk(env, states, actions, n - 1);
      StepPreserves(env, states[n - 1], actions[n - 1]);
      EvolvesTransitive(states[i], states[n - 1], states[n]);
    }
  }

  // --------------------------------------------------------------- 1. the lifecycle

  // No write is ever refused: every row of every reachable state satisfies the
  // CHECK constraints, and no two rows name the same scanner job.
  lemma NoWriteIsRefused(env: Env, states: seq<System>, actions: seq<Action>, n: nat)
    requires Execution(env, states, actions) && Init(env, states[0]) && n <= |actions|
    ensures !states[n].refused
    ensures forall id :: id in states[n].db.jobs ==>
      var j := states[n].db.jobs[id];
      && RowStands(j) && (j.startedAt.Some? <==> j.scannerId.Some?)
      && j.request.endPort - j.request.startPort < 1000
    ensures forall a, b :: (a in states[n].db.jobs && b in states[n].db.jobs
              && states[n].db.jobs[a].scannerId == states[n].db.jobs[b].scannerId
              && states[n].db.jobs[a].scannerId.Some?) ==> a == b
  {
    hide Inv, Init, Enabled, Apply, RowStands, RowChecks, HistoryOk, StoredOk;
    ReachableOk(env, states, actions, n);
    NotRefused(env, states[n]);
    forall id | id in states[n].db.jobs ensures JobOk(states[n], id) && RowStands(states[n].db.jobs[id]) {
      RowIsOk(env, states[n], id);
      RowByStatus(states[n].db.jobs[id]);
    }
  }

  lemma NotRefused(env: Env, s: System)
    requires Inv(env, s)
    ensures !s.refused
  {
    hide JobsOk, ProcsOk, LocksOk, RoomOk, ScansDistinct, StrayOk, ClaimsOk, LinksOk, ResponsesOk, Go.EngineOk;
  }

  // Seen at two moments, a row has followed the five-state automaton; a
  // terminal row has not changed at all; and its scanner id was written at
  // most once, on the way out of QUEUED.
  lemma RowsFollowTheAutomaton(env: Env, states: seq<System>, actions: seq<Action>, i: nat, n: nat, id: Id)
    requires Execution(env, states, actions) && Init(env, states[0]) && i <= n <= |actions|
    requires id in states[i].db.jobs
    ensures id in states[n].db.jobs
    ensures var a, b := states[i].db.jobs[id], states[n].db.jobs[id];
      && (b.status == a.status || a.status == QUEUED || (a.status == RUNNING && b.status in {COMPLETED, FAILED}))
      && b.owner == a.owner && b.request == a.request && b.createdAt == a.createdAt
      && (a.status in {COMPLETED, FAILED, BLOCKED} ==> b == a)
      && (a.scannerId.Some? ==> b.scannerId == a.scannerId && b.startedAt == a.startedAt)
      && (a.scannerId.None? && b.scannerId.Some? ==>
            a.status == QUEUED && (b.status == RUNNING || b.status == COMPLETED || b.status == FAILED))
  {
    hide Inv, Init, Enabled, Apply, RecordsGrow;
    ReachableEvolves(env, states, actions, i, n);
  }

  // ---------------------------------------------------------- 2. one active scan

  lemma OwnersStayWithinTheirLimit(env: Env, states: seq<System>, actions: seq<Action>, n: nat, owner: Subject,
                                   ids: set<Id>)
    requires Execution(env, states, actions) && Init(env, states[0]) && n <= |actions|
    requires forall id :: id in ids ==>
      && id in states[n].db.jobs && states[n].db.jobs[id].owner == owner
      && (states[n].db.jobs[id].status == QUEUED || states[n].db.jobs[id].status == RUNNING)
    ensures |ids| <= env.ownerLimit
    ensures env.ownerLimit == 1 ==> forall a, b :: a in ids && b in ids ==> a == b
  {
    hide Inv, Init, Enabled, Apply, ActiveOf;
    ReachableOk(env, states, actions, n);
    RoomOf(env, states[n], owner);
    CountsAllActive(states[n].db, owner);
    assert WaitOrRun(states[n].db, owner, ids);
    if env.ownerLimit == 1 {
      forall a, b | a in ids && b in ids ensures a == b {
        SubsetSize({a, b}, ids);
      }
    }
  }

  lemma RoomOf(env: Env, s: System, owner: Subject)
    requires Inv(env, s)
    ensures |ActiveOf(s.db, owner)| <= env.ownerLimit
  {
    hide JobsOk, ProcsOk, LocksOk, ScansDistinct, StrayOk, ClaimsOk, LinksOk, ResponsesOk, Go.EngineOk, ActiveOf;
  }

  // ------------------------------------------------------------ 3. safe retries

  // The scanner still holds a job that was created for the public scan.
  ghost predicate Retained(s: System, scan: Id, held: Id) {
    held in s.engine.store.jobs && held in s.engine.origin && s.engine.origin[held].key == Some(scan)
  }

  ghost predicate RetainsNone(s: System, scan: Id) {
    forall held :: !Retained(s, scan, held)
  }

  // The new scanner job serves the scan of this message with its configuration,
  // so with the pins that its dispatch attached.
  ghost predicate CreatedFrom(t: System, m: Message, scannerId: Id) {
    && scannerId in t.creators && t.creators[scannerId] == m.attachment
    && scannerId in t.engine.origin && t.engine.origin[scannerId] == Go.Origin(Some(m.scan), m.config)
  }

  // What handling a message comes to. A scanner job is created exactly when the
  // scan's target passes validation, no job is retained for it and there is
  // room, and then from this message; the retry gets the retained job exactly
  // when the target passes and there is one; and a conflict is never answered.
  ghost predicate HandledSafely(s: System, t: System, token: Id, verdict: Option<FailureCode>, scannerId: Id)
    requires token in s.sent
  {
    var m := s.sent[token];
    var room := |s.engine.workers.Keys| < s.engine.store.maxActive;
    && token in t.replies && !t.replies[token].Conflicting?
    && (scannerId in t.engine.origin <==> verdict.None? && RetainsNone(s, m.scan) && room)
    && (scannerId in t.engine.origin ==> CreatedFrom(t, m, scannerId))
    && (scannerId !in t.engine.origin ==> t.engine == s.engine && t.creators == s.creators)
    && (forall held :: Retained(s, m.scan, held) ==>
          (t.replies[token] == Accepted(held, m.config.request) <==> verdict.None?))
    && ((t.replies[token].Accepted? && t.replies[token].scannerId in s.engine.store.jobs) <==>
          (verdict.None? && !RetainsNone(s, m.scan)))
    && (t.replies[token].Limited? <==> verdict.None? && RetainsNone(s, m.scan) && !room)
    && (verdict.Some? ==> t.replies[token] == BadRequest(verdict.value))
  }

  lemma RetriesAreSafe(env: Env, states: seq<System>, actions: seq<Action>, n: nat, token: Id,
                       verdict: Option<FailureCode>, scannerId: Id)
    requires Execution(env, states, actions) && Init(env, states[0]) && n <= |actions|
    requires token in states[n].sent && scannerId !in states[n].engine.origin
    ensures HandledSafely(states[n], HandleStep(states[n], token, verdict, scannerId), token, verdict, scannerId)
  {
    hide Inv, Init, Enabled, Apply, LinksOk, JobsOk, Go.EngineOk, HandledSafely, HandleStep;
    var s := states[n];
    ReachableOk(env, states, actions, n);
    LinksOf(env, s);
    if verdict.Some? {
      RefusedHandling(s, token, verdict.value, scannerId);
    } else if RetainsNone(s, s.sent[token].scan) {
      NewHandling(env, s, token, scannerId);
    } else {
      var held :| Retained(s, s.sent[token].scan, held);
      HeldHandling(env, s, token, scannerId, held);
    }
  }

  lemma RefusedHandling(s: System, token: Id, code: FailureCode, scannerId: Id)
    requires token in s.sent && scannerId !in s.engine.origin
    ensures HandledSafely(s, HandleStep(s, token, Some(code), scannerId), token, Some(code), scannerId)
  {
    hide Go.Receive;
  }

  lemma UnknownKey(s: System, scan: Id)
    requires Go.EngineOk(s.engine) && RetainsNone(s, scan)
    ensures scan !in s.engine.store.keys
  {
    hide Go.LimitsOk, Go.JobsOk, Go.WorkersOk;
    assert scan in s.engine.store.keys ==> Retained(s, scan, s.engine.store.keys[scan]);
  }

  lemma NewHandled(s: System, token: Id, scannerId: Id)
    requires Go.EngineOk(s.engine) && token in s.sent && s.sent[token].scan !in s.engine.store.keys
    ensures var m, t := s.sent[token], HandleStep(s, token, None, scannerId);
      if |s.engine.workers.Keys| < s.engine.store.maxActive
      then
        && t.engine == Go.Created(s.engine, scannerId, m.config, Some(m.scan), s.clock)
        && t.replies == s.replies[token := Accepted(scannerId, m.config.request)]
        && t.creators == s.creators[scannerId := m.attachment]
      else t.engine == s.engine && t.replies == s.replies[token := Limited] && t.creators == s.creators
  {
    hide Go.Receive, Go.Created, Go.LimitsOk, Go.JobsOk, Go.KeysOk;
    var m := s.sent[token];
    Go.ReceiveNew(s.engine, scannerId, m.config, Some(m.scan), s.clock);
  }

  lemma NewHandling(env: Env, s: System, token: Id, scannerId: Id)
    requires Go.EngineOk(s.engine) && token in s.sent && scannerId !in s.engine.origin
    requires RetainsNone(s, s.sent[token].scan)
    ensures HandledSafely(s, HandleStep(s, token, None, scannerId), token, None, scannerId)
  {
    hide HandleStep, Go.EngineOk;
    UnknownKey(s, s.sent[token].scan);
    NewHandled(s, token, scannerId);
    StoredAreKnown(s);
  }

  lemma StoredAreKnown(s: System)
    requires Go.EngineOk(s.engine)
    ensures s.engine.store.jobs.Keys <= s.engine.origin.Keys
  {
    hide Go.LimitsOk, Go.KeysOk, Go.WorkersOk, Go.JobOk;
  }

  lemma HeldHandling(env: Env, s: System, token: Id, scannerId: Id, held: Id)
    requires Go.EngineOk(s.engine) && LinksOk(env, s) && token in s.sent && scannerId !in s.engine.origin
    requires Retained(s, s.sent[token].scan, held)
    ensures HandledSafely(s, HandleStep(s, token, None, scannerId), token, None, scannerId)
  {
    hide Go.Receive, LinksOk, Go.EngineOk;
    HeldAnswers(env, s, token, scannerId, held);
    forall other | Retained(s, s.sent[token].scan, other) ensures other == held {
      OneRetained(s, s.sent[token].scan, held, other);
    }
  }

  // No two retained jobs serve one scan.
  lemma OneRetained(s: System, scan: Id, a: Id, b: Id)
    requires Go.EngineOk(s.engine) && Retained(s, scan, a) && Retained(s, scan, b)
    ensures a == b
  {
    hide Go.JobsOk, Go.WorkersOk, Go.LimitsOk;
  }

  lemma HeldAnswers(env: Env, s: System, token: Id, scannerId: Id, held: Id)
    requires Go.EngineOk(s.engine) && LinksOk(env, s) && token in s.sent && scannerId !in s.engine.origin
    requires held in s.engine.store.jobs && held in s.engine.origin
    requires s.engine.origin[held].key == Some(s.sent[token].scan)
    ensures var m := s.sent[token];
      var (engine, answer) := Go.Receive(s.engine, scannerId, m.config, Some(m.scan), s.clock);
      engine == s.engine && answer.Admitted? && !answer.created
      && answer.job.id == held && answer.job.request == m.config.request
  {
    hide Go.WorkersOk, Go.LimitsOk, Go.WellShaped, LinksOk, Go.Receive;
    var m := s.sent[token];
    assert s.engine.store.keys[m.scan] == held;
    Go.ReceiveKnown(s.engine, scannerId, m.config, m.scan, s.clock);
    RetryNeverConflicts(env, s, token, scannerId);
    assert Go.JobOk(s.engine, held);
    HolderRequest(s, held);
  }

  // At most one scanner job is live per public scan.
  lemma OneLiveScannerJobPerScan(env: Env, states: seq<System>, actions: seq<Action>, n: nat, a: Id, b: Id)
    requires Execution(env, states, actions) && Init(env, states[0]) && n <= |actions|
    requires a in states[n].engine.workers && b in states[n].engine.workers
    ensures a in states[n].engine.origin && b in states[n].engine.origin
    ensures states[n].engine.origin[a].key.Some?
    ensures states[n].engine.origin[a].key == states[n].engine.origin[b].key ==> a == b
  {
    hide Inv, Init, Enabled, Apply, JobsOk, Go.JobOk, AttachmentOk, MessageOk, ReplyOk;
    ReachableOk(env, states, actions, n);
    LinksOf(env, states[n]);
    var e := states[n].engine;
    assert a in Store.ActiveIds(e.store.jobs) && b in Store.ActiveIds(e.store.jobs);
    assert OriginOk(states[n], a) && OriginOk(states[n], b);
  }

  // ------------------------------------------------------- 4. complete results

  // A completed row has exactly one result per port and pin of the dispatch
  // that created its scanner job, at most 16 x 1000 of them, and its audit
  // records their number; a row that is not completed has none.
  lemma ResultsAreComplete(env: Env, states: seq<System>, actions: seq<Action>, n: nat, id: Id)
    requires Execution(env, states, actions) && Init(env, states[0]) && n <= |actions| && id in states[n].db.jobs
    ensures var s, j := states[n], states[n].db.jobs[id];
      if j.status == COMPLETED then
        && j.scannerId.Some? && j.duration.Some?
        && j.scannerId.value in s.creators && s.creators[j.scannerId.value] in s.attachments
        && s.creators[j.scannerId.value].scan == id
        && (forall e :: e in ResultsOf(s.db, id) <==>
              e.address in s.creators[j.scannerId.value].pins && j.request.startPort <= e.port <= j.request.endPort)
        && |ResultsOf(s.db, id)|
             == |s.creators[j.scannerId.value].pins| * (j.request.endPort - j.request.startPort + 1)
        && 1 <= |ResultsOf(s.db, id)| <= 16 * 1000
        && |EventsOf(s.db.audit, id)| == 3
        && EventsOf(s.db.audit, id)[2].metadata == Counts(|ResultsOf(s.db, id)|, j.duration.value)
      else ResultsOf(s.db, id) == map[]
  {
    hide Inv, Init, Enabled, Apply, JobsOk, Go.EngineOk, AttachmentOk, MessageOk, ReplyOk, EventsOf, ResultsOf;
    var s := states[n];
    ReachableOk(env, states, actions, n);
    LinksOf(env, s);
    RowIsOk(env, s, id);
    if s.db.jobs[id].status == COMPLETED {
      assert OriginOk(s, s.db.jobs[id].scannerId.value);
    }
  }

  // The step that completes a row stores the scanner's answer as it came: every
  // row of it, each with its own state, and nothing else.
  lemma CompletionStoresTheAnswer(env: Env, states: seq<System>, actions: seq<Action>, n: nat, pid: Id, at: Time)
    requires Execution(env, states, actions) && Init(env, states[0]) && n < |actions|
    requires actions[n] == Proceed(pid, Synchronize(at)) && pid in states[n].procs
    requires states[n].procs[pid].pc.PollSynchronize?
    requires states[n].procs[pid].pc.answer.status == Store.Completed
    requires states[n].procs[pid].scan in states[n].db.jobs
    requires states[n].db.jobs[states[n].procs[pid].scan].status in {QUEUED, RUNNING}
    ensures var scan, answer := states[n].procs[pid].scan, states[n].procs[pid].pc.answer;
      && answer.result.Some? && scan in states[n + 1].db.jobs && states[n + 1].db.jobs[scan].status == COMPLETED
      && var stored, rows := ResultsOf(states[n + 1].db, scan), answer.result.value.results;
         && (forall i :: 0 <= i < |rows| ==> rows[i].endpoint in stored && stored[rows[i].endpoint] == rows[i].state)
         && (forall e :: e in stored ==> exists i :: 0 <= i < |rows| && rows[i].endpoint == e)
  {
    hide Inv, Init, Enabled, Apply, LinksOk, JobsOk, Go.EngineOk, ServingOk, Delivers, InsertResults, RowsStored,
      Evolves;
    var s := states[n];
    ReachableOk(env, states, actions, n);
    ReachableOk(env, states, actions, n + 1);
    NotRefused(env, states[n + 1]);
    PcOf(env, s, pid);
    LinksOf(env, s);
    assert Enabled(env, s, actions[n]) && states[n + 1] == Apply(env, s, actions[n]);
    AnswerStored(env, s, pid, at, states[n + 1]);
    StoredRows(ResultsOf(states[n + 1].db, s.procs[pid].scan), s.procs[pid].pc.answer.result.value.results);
  }

  lemma StoredRows(table: map<Endpoint, PortState>, rows: seq<PortResult>)
    requires RowsStored(table, rows) && table.Keys == Elements(Endpoints(rows))
    ensures forall i :: 0 <= i < |rows| ==> rows[i].endpoint in table && table[rows[i].endpoint] == rows[i].state
    ensures forall e :: e in table ==> exists i :: 0 <= i < |rows| && rows[i].endpoint == e
  {
    forall e | e in table ensures exists i :: 0 <= i < |rows| && rows[i].endpoint == e {
      assert e in Elements(Endpoints(rows));
      var i :| 0 <= i < |rows| && Endpoints(rows)[i] == e;
    }
  }

  lemma AnswerStored(env: Env, s: System, pid: Id, at: Time, t: System)
    requires pid in s.procs && s.procs[pid].pc.PollSynchronize? && s.procs[pid].pc.answer.status == Store.Completed
    requires LinksOk(env, s) && JobsOk(s) && Go.EngineOk(s.engine) && ServingOk(env, s, s.procs[pid])
    requires s.procs[pid].scan in s.db.jobs && IsActive(s.db.jobs[s.procs[pid].scan])
    requires Enabled(env, s, Proceed(pid, Synchronize(at))) && t == Apply(env, s, Proceed(pid, Synchronize(at)))
    requires !t.refused
    ensures var scan, answer := s.procs[pid].scan, s.procs[pid].pc.answer;
      && answer.result.Some? && scan in t.db.jobs && t.db.jobs[scan].status == COMPLETED
      && RowsStored(ResultsOf(t.db, scan), answer.result.value.results)
      && ResultsOf(t.db, scan).Keys == Elements(Endpoints(answer.result.value.results))
  {
    hide LinksOk, Go.EngineOk, JobsOk, ServingOk, InsertResults, RowsStored, SynchronizeCompleted, Delivers,
      CompletedEvent;
    var p := s.procs[pid];
    ServingScan(env, s, p);
    AnswerDelivers(env, s, p, p.pc.scannerId, p.pc.answer);
    var result := p.pc.answer.result.value;
    assert t == SynchronizeStep(s, pid, at);
    DeliveredIsStored(env, s, p, result, at);
  }

  lemma DeliveredIsStored(env: Env, s: System, p: Proc, result: ScanResult, at: Time)
    requires JobsOk(s) && ServingOk(env, s, p) && AtWrite(p.pc) && p.since <= at <= s.clock
    requires p.scan in s.db.jobs && IsActive(s.db.jobs[p.scan]) && Delivers(s, p, result)
    ensures var w := SynchronizeCompleted(s.db, p.scan, p.owner, result, at);
      && w.Applied? && p.scan in w.db.jobs && w.db.jobs[p.scan].status == COMPLETED
      && RowsStored(ResultsOf(w.db, p.scan), result.results)
      && ResultsOf(w.db, p.scan).Keys == Elements(Endpoints(result.results))
  {
    hide ServingOk, InsertResults, RowsStored, SynchronizeCompleted, RowChecks, HistoryOk, CompleteOutput,
      CompletedEvent;
    CompletedApplies(env, s, p, result, at);
    assert JobOk(s, p.scan);
    ResultsArriveInFull(s, p, result);
    CompleteOutputContents(result.results, s.engine.origin[s.db.jobs[p.scan].scannerId.value].config);
    InsertResultsKeys(result.results);
  }

  // ------------------------------------------------------------ 5. faithful audit

  // Folding a job's audit events from nothing gives exactly its status; the
  // log holds nothing about jobs that do not exist.
  lemma AuditTellsTheStatus(env: Env, states: seq<System>, actions: seq<Action>, n: nat, id: Id)
    requires Execution(env, states, actions) && Init(env, states[0]) && n <= |actions|
    ensures var s := states[n];
      Replay(Actions(EventsOf(s.db.audit, id))) == if id in s.db.jobs then Some(s.db.jobs[id].status) else None
    ensures id in states[n].db.jobs ==>
      EventsTell(EventsOf(states[n].db.audit, id), states[n].db.jobs[id], |ResultsOf(states[n].db, id)|)
    ensures forall k :: 0 <= k < |states[n].db.audit| && states[n].db.audit[k].job == id ==>
      exists i :: 0 <= i < |EventsOf(states[n].db.audit, id)|
                  && EventsOf(states[n].db.audit, id)[i] == states[n].db.audit[k]
  {
    hide Inv, Init, Enabled, Apply, EventsOf, LifeWord, EventsTell;
    var s := states[n];
    ReachableOk(env, states, actions, n);
    if id in s.db.jobs {
      RowIsOk(env, s, id);
      LifeWordReplays(s.db.jobs[id]);
      FitIsTold(EventsOf(s.db.audit, id), s.db.jobs[id], |ResultsOf(s.db, id)|);
    } else {
      StrayOf(env, s);
    }
    forall k | 0 <= k < |s.db.audit| && s.db.audit[k].job == id
      ensures exists i :: 0 <= i < |EventsOf(s.db.audit, id)| && EventsOf(s.db.audit, id)[i] == s.db.audit[k]
    {
      EventIsListed(s.db.audit, id, k);
    }
  }

  // A job's events, one by one: request, start or refusal, end; and what the
  // first and the last of them carry.
  predicate EventsTell(events: seq<AuditEvent>, j: Job, resultCount: int) {
    && |events| >= 1 && events[0].action == ScanRequested
    && events[0].metadata == Ports(j.request.startPort, j.request.endPort)
    && (forall i :: 0 <= i < |events| ==> events[i].owner == j.owner)
    && match j.status
       case QUEUED => |events| == 1
       case RUNNING => |events| == 2 && events[1].action == ScanStarted
       case COMPLETED =>
         && |events| == 3 && events[1].action == ScanStarted && events[2].action == ScanCompleted
         && j.duration.Some? && events[2].metadata == Counts(resultCount, j.duration.value)
       case FAILED =>
         && |events| == (if j.startedAt.Some? then 3 else 2)
         && (j.startedAt.Some? ==> events[1].action == ScanStarted)
         && events[|events| - 1].action == ScanFailed
         && j.failure.Some? && events[|events| - 1].metadata == Code(j.failure.value)
       case BLOCKED =>
         && |events| == 2 && events[1].action == ScanBlocked
         && j.failure.Some? && events[1].metadata == Code(j.failure.value)
  }

  lemma FitIsTold(events: seq<AuditEvent>, j: Job, resultCount: int)
    requires EventsFit(events, j, resultCount) && RowChecks(j)
    ensures EventsTell(events, j, resultCount)
  {
    var actions := Actions(events);
    assert forall i :: 0 <= i < |events| ==> actions[i] == events[i].action;
  }

  // No event of the job is left out of its history.
  lemma {:induction false} EventIsListed(audit: seq<AuditEvent>, id: Id, k: nat)
    requires k < |audit| && audit[k].job == id
    ensures exists i :: 0 <= i < |EventsOf(audit, id)| && EventsOf(audit, id)[i] == audit[k]
  {
    var last := |audit| - 1;
    var events, before := EventsOf(audit, id), EventsOf(audit[..last], id);
    if k == last {
      assert events[|events| - 1] == audit[k];
    } else {
      EventIsListed(audit[..last], id, k);
      var i :| 0 <= i < |before| && before[i] == audit[k];
      assert events[i] == before[i];
    }
  }

  lemma StrayOf(env: Env, s: System)
    requires Inv(env, s)
    ensures StrayOk(s) && ClaimsOk(s) && ResponsesOk(s)
  {
    hide JobsOk, ProcsOk, LocksOk, RoomOk, ScansDistinct, StrayOk, ClaimsOk, LinksOk, ResponsesOk, Go.EngineOk;
  }

  // ---------------------------------------------------------- 6. authorized dials

  // Every address ever dialled was a pin of a dispatch that held a lease it
  // had claimed itself and had attached a rule which, at that instant, was
  // enabled, unexpired, open to the owner, and covered target and ports.
  lemma EveryDialWasAuthorized(env: Env, states: seq<System>, actions: seq<Action>, n: nat, scannerId: Id,
                               address: Address)
    requires Execution(env, states, actions) && Init(env, states[0]) && n <= |actions|
    requires (scannerId, address) in states[n].dials
    ensures var s := states[n];
      && scannerId in s.creators && s.creators[scannerId] in s.attachments
      && var a := s.creators[scannerId];
         && address in a.pins && 1 <= |a.pins| <= 16
         && (forall i, k :: 0 <= i < k < |a.pins| ==> a.pins[i] != a.pins[k])
         && a.scan in s.db.jobs && a.scan in s.claims && a.token in s.claims[a.scan]
         && var j := s.db.jobs[a.scan];
            && a.rule.enabled
            && (a.rule.expiresAt.Some? ==> a.at < a.rule.expiresAt.value)
            && (a.rule.scope.Some? ==> a.rule.scope.value == j.owner)
            && (a.rule.ports.Some? ==>
                  a.rule.ports.value.0 <= j.request.startPort <= j.request.endPort <= a.rule.ports.value.1)
            && env.covers(a.rule.target, j.request.target)
  {
    hide Inv, Init, Enabled, Apply, JobsOk, Go.EngineOk, MessageOk, ReplyOk, HistoryOk, StoredOk, LinkOk;
    var s := states[n];
    ReachableOk(env, states, actions, n);
    LinksOf(env, s);
    assert OriginOk(s, scannerId);
    assert AttachmentOk(env, s, s.creators[scannerId]);
    RowIsOk(env, s, s.creators[scannerId].scan);
  }

  // --------------------------------------------------------------- 7. lease fencing

  // Once a later claim has succeeded, the holder of an earlier token is fenced
  // off for good: however late its writes arrive, they change nothing.
  lemma StaleTokensAreFenced(env: Env, states: seq<System>, actions: seq<Action>, i: nat, n: nat, id: Id, k: nat)
    requires Execution(env, states, actions) && Init(env, states[0]) && i <= n <= |actions|
    requires id in states[i].claims && k + 1 < |states[i].claims[id]|
    ensures var db, token := states[n].db, states[i].claims[id][k];
      && !HoldsLease(db, id, token)
      && (forall rule, at :: AttachAllowedTarget(db, id, rule, token, at) == Unchanged)
      && (forall owner, scannerId, at :: MarkDispatched(db, id, owner, scannerId, token, at) == Unchanged)
      && (forall owner, code, blocked, at :: MarkDispatchFailed(db, id, owner, code, blocked, token, at) == Unchanged)
  {
    hide Inv, Init, Enabled, Apply, RowsEvolve, Put, HistoryOk, StoredOk, ResponsesOk, StrayOk;
    ReachableOk(env, states, actions, n);
    ReachableEvolves(env, states, actions, i, n);
    StrayOf(env, states[n]);
    var token, claims := states[i].claims[id][k], states[n].claims[id];
    assert claims[k] == token && k < |claims| - 1;
    if HoldsLease(states[n].db, id, token) {
      RowIsOk(env, states[n], id);
    }
  }

  // A claim only succeeds when no other lease on the row is running.
  lemma ClaimsWaitForLeases(env: Env, states: seq<System>, actions: seq<Action>, n: nat, id: Id, token: Id, at: Time)
    requires Execution(env, states, actions) && Init(env, states[0]) && n <= |actions| && at <= states[n].clock
    requires ClaimDispatch(states[n].db, id, token, env.leaseSeconds, at).Applied?
    ensures id in states[n].db.jobs
    ensures var j := states[n].db.jobs[id];
      j.status == QUEUED && (j.leaseToken.Some? ==> j.leaseExpires.Some? && j.leaseExpires.value <= states[n].clock)
  {
    hide Inv, Init, Enabled, Apply, HistoryOk, StoredOk, LinkOk, Put;
    ReachableOk(env, states, actions, n);
    if id in states[n].db.jobs {
      RowIsOk(env, states[n], id);
    }
  }

  // So two successful claims of one scan lie a whole lease apart, whatever
  // happened in between and however late the second one reads the clock.
  lemma LeasesExclude(env: Env, states: seq<System>, actions: seq<Action>, i: nat, n: nat, pid: Id, scan: Id,
                      token: Id, at: Time, other: Id, later: Time)
    requires Execution(env, states, actions) && Init(env, states[0]) && i < n <= |actions|
    requires actions[i] == Proceed(pid, Claim(token, at)) && pid in states[i].procs && states[i].procs[pid].scan == scan
    requires ClaimDispatch(states[i].db, scan, token, env.leaseSeconds, at).Applied?
    requires ClaimDispatch(states[n].db, scan, other, env.leaseSeconds, later).Applied?
    ensures later >= at + env.leaseSeconds
  {
    hide Inv, Init, Enabled, Apply, RecordsGrow, Put;
    ReachableEvolves(env, states, actions, i + 1, n);
    assert Enabled(env, states[i], actions[i]) && states[i + 1] == Apply(env, states[i], actions[i]);
    ClaimRecordsExpiry(env, states[i], pid, token, at, states[i + 1]);
    assert JobEvolves(states[i + 1].db.jobs[scan], states[n].db.jobs[scan]);
  }

  lemma ClaimRecordsExpiry(env: Env, s: System, pid: Id, token: Id, at: Time, t: System)
    requires pid in s.procs && Enabled(env, s, Proceed(pid, Claim(token, at)))
    requires t == Apply(env, s, Proceed(pid, Claim(token, at)))
    requires ClaimDispatch(s.db, s.procs[pid].scan, token, env.leaseSeconds, at).Applied?
    ensures var scan := s.procs[pid].scan;
      scan in t.db.jobs && t.db.jobs[scan].leaseExpires == Some(at + env.leaseSeconds)
  {
    hide RowChecks, ScannerIdUnique;
    assert t == ClaimStep(env, s, pid, token, at);
  }

  // ------------------------------------------------------------- 8. what polls say

  // An answer that says completed carries the whole committed result set
  // exactly when it was not given by the failure branch; every other answer
  // carries no results.
  lemma CompletedAnswersAreFull(env: Env, states: seq<System>, actions: seq<Action>, n: nat, i: nat)
    requires Execution(env, states, actions) && Init(env, states[0]) && n <= |actions| && i < |states[n].responses|
    ensures var s, r := states[n], states[n].responses[i];
      && r.scan in s.db.jobs
      && (r.job.status == COMPLETED ==>
            s.db.jobs[r.scan] == r.job && (r.results == ResultsOf(s.db, r.scan) <==> !r.failed))
      && (r.job.status != COMPLETED || r.failed ==> r.results == map[])
  {
    hide Inv, Init, Enabled, Apply, HistoryOk, RowOk, LinkOk, ResultsOf, StrayOk, ClaimsOk;
    var s := states[n];
    ReachableOk(env, states, actions, n);
    StrayOf(env, s);
    assert ResponseOk(s, i);
    RowIsOk(env, s, s.responses[i].scan);
  }

  // A poll begun after another was answered never reports an earlier stage.
  lemma PollsNeverGoBack(env: Env, states: seq<System>, actions: seq<Action>, n: nat, i: nat, k: nat)
    requires Execution(env, states, actions) && Init(env, states[0]) && n <= |actions|
    requires i < k < |states[n].responses| && i < states[n].responses[k].begun
    requires states[n].responses[i].scan == states[n].responses[k].scan
    ensures var a, b := states[n].responses[i].job, states[n].responses[k].job;
      && (b.status == a.status || a.status == QUEUED || (a.status == RUNNING && b.status in {COMPLETED, FAILED}))
      && (a.status in {COMPLETED, FAILED, BLOCKED} ==> b == a)
  {
    hide Inv, Init, Enabled, Apply, StrayOk, ClaimsOk;
    ReachableOk(env, states, actions, n);
    StrayOf(env, states[n]);
    assert ResponseOk(states[n], k);
  }

  // ------------------------------------------------------- 9. a compatible scanner

  // With this scanner the API never sees a response it cannot use: a fetch
  // that reaches it either finds the job gone or goes on to synchronize.
  lemma FetchNeverMismatches(env: Env, states: seq<System>, actions: seq<Action>, n: nat, pid: Id)
    requires Execution(env, states, actions) && Init(env, states[0]) && n <= |actions| && pid in states[n].procs
    ensures states[n].procs[pid].pc != PollMismatch
    ensures states[n].procs[pid].pc.PollFetch? ==>
              var g, job := states[n].procs[pid].pc.scannerId, states[n].procs[pid].pc.job;
              AfterFetch(states[n], g, job) ==
                if g in states[n].engine.store.jobs then PollSynchronize(g, states[n].engine.store.jobs[g])
                else PollFail(ScanNotFound)
  {
    hide Inv, Init, Enabled, Apply, LinksOk, JobsOk, Go.EngineOk, AfterFetch, HistoryOk, StoredOk, RowOk;
    var s := states[n];
    ReachableOk(env, states, actions, n);
    MismatchNever(env, s, pid);
    if s.procs[pid].pc.PollFetch? {
      PcOf(env, s, pid);
      LinksOf(env, s);
      var p := s.procs[pid];
      FetchIs(env, s, p, p.pc.scannerId, p.pc.job);
    }
  }

  lemma FetchIs(env: Env, s: System, p: Proc, scannerId: Id, job: Job)
    requires LinksOk(env, s) && Go.EngineOk(s.engine) && JobsOk(s)
    requires p.pc == PollFetch(scannerId, job) && ServingOk(env, s, p)
    ensures AfterFetch(s, scannerId, job) ==
      if scannerId in s.engine.store.jobs then PollSynchronize(scannerId, s.engine.store.jobs[scannerId])
      else PollFail(ScanNotFound)
  {
    hide LinksOk, Go.EngineOk, HistoryOk, StoredOk, RowOk;
    assert JobOk(s, p.scan);
    if scannerId in s.engine.store.jobs {
      FetchedMatches(env, s, p.scan, scannerId, job);
    }
  }

  // ----------------------------------------------------------------- 10. blocked

  // What BLOCKED does mean: no scanner job recorded, never started, no results.
  lemma BlockedRowsAreBare(env: Env, states: seq<System>, actions: seq<Action>, n: nat, id: Id)
    requires Execution(env, states, actions) && Init(env, states[0]) && n <= |actions|
    requires id in states[n].db.jobs && states[n].db.jobs[id].status == BLOCKED
    ensures states[n].db.jobs[id].scannerId.None? && states[n].db.jobs[id].startedAt.None?
    ensures ResultsOf(states[n].db, id) == map[]
    ensures Actions(EventsOf(states[n].db.audit, id)) == [ScanRequested, ScanBlocked]
  {
    hide Inv, Init, Enabled, Apply, EventsOf, ResultsOf;
    ReachableOk(env, states, actions, n);
    RowIsOk(env, states[n], id);
  }
}
