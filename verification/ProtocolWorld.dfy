// What happens around the API: time, rule administration, the scanner and the
// messages it handles.
module ProtocolWorld {
  import opened Collections
  import opened ScanTasks
  import opened ScanRecords
  import opened DispatchProtocol
  import opened ProtocolInvariant
  import opened ProtocolQuiet
  import opened ProtocolAdmission
  import Store = JobStore
  import Go = GoEngine

  // Rows, requests and locks stand still; rules, clock, scanner and messages
  // may move.
  ghost predicate Outside(s: System, t: System) {
    && t.db == s.db.(rules := t.db.rules)
    && (forall r :: r in s.db.rules ==> r in t.db.rules && RuleEvolves(s.db.rules[r], t.db.rules[r]))
    && s.clock <= t.clock
    && t.procs == s.procs && t.locks == s.locks
    && t.scans == s.scans && t.tokens == s.tokens && t.claims == s.claims && t.attachments == s.attachments
    && t.responses == s.responses && !t.refused
    && (forall g :: g in s.engine.origin ==> g in t.engine.origin && t.engine.origin[g] == s.engine.origin[g])
  }

  lemma OutsideEvolves(s: System, t: System)
    requires Outside(s, t)
    ensures Evolves(s, t)
  {}

  lemma OutsideLeavesRows(s: System, t: System)
    requires Outside(s, t)
    ensures StrayOk(s) ==> StrayOk(t)
    ensures ClaimsOk(s) ==> ClaimsOk(t)
    ensures forall id :: id in s.db.jobs ==> SameJob(s, t, id)
    ensures t.db.jobs == s.db.jobs && t.procs == s.procs && t.locks == s.locks && t.responses == s.responses
  {
    hide EventsOf;
  }

  lemma OutsideJobsOk(s: System, t: System)
    requires Outside(s, t) && JobsOk(s)
    ensures JobsOk(t)
  {
    hide Evolves, JobOk, SameJob, Outside;
    OutsideEvolves(s, t);
    OutsideLeavesRows(s, t);
    forall id | id in t.db.jobs ensures JobOk(t, id) {
      SameJobStaysOk(s, t, id);
    }
  }

  lemma OutsideProcsOk(env: Env, s: System, t: System)
    requires Outside(s, t) && ProcsOk(env, s)
    ensures ProcsOk(env, t)
  {
    hide Evolves, ServingOk, Outside;
    OutsideEvolves(s, t);
    OutsideLeavesRows(s, t);
    forall pid | pid in t.procs ensures ProcOk(env, t, t.procs[pid]) {
      if Admitting(t.procs[pid].pc) {
        assert ProcOk(env, s, s.procs[pid]);
      }
      UntouchedOk(env, s, t, pid);
    }
  }

  lemma OutsideAdmission(env: Env, s: System, t: System)
    requires t.db.jobs == s.db.jobs && t.procs == s.procs && t.locks == s.locks
    requires LocksOk(env, s) && ScansDistinct(s) && RoomOk(env, s)
    ensures LocksOk(env, t) && ScansDistinct(t) && RoomOk(env, t)
  {
    forall q | q in t.procs && HoldsLock(t.procs[q].pc) ensures Locked(env, t, q) {
      assert Locked(env, s, q);
    }
    forall owner ensures ActiveOf(t.db, owner) == ActiveOf(s.db, owner) {}
  }

  lemma OutsidePreserves(env: Env, s: System, t: System)
    requires Inv(env, s) && Outside(s, t) && LinksOk(env, t) && Go.EngineOk(t.engine)
    ensures Keeps(env, s, t)
  {
    hide Evolves, JobsOk, ProcsOk, LocksOk, RoomOk, ScansDistinct, StrayOk, ClaimsOk, LinksOk, ResponsesOk,
      Go.EngineOk, SameJob;
    OutsideEvolves(s, t);
    OutsideLeavesRows(s, t);
    OutsideJobsOk(s, t);
    OutsideProcsOk(env, s, t);
    OutsideAdmission(env, s, t);
    ResponsesFrame(s, t);
  }

  // ---------------------------------------------------------------- the messages

  lemma ReceiveKeepsLinks(env: Env, s: System, t: System, token: Id)
    requires LinksOk(env, s) && Outside(s, t) && token in s.sent
    requires t.sent == s.sent - {token} && t.dials == s.dials
    requires forall k :: k in t.replies && k != token ==> k in s.replies && t.replies[k] == s.replies[k]
    requires token in t.replies ==> ReplyOk(t, token)
    requires forall g :: g in t.engine.origin && g !in s.engine.origin ==> OriginOk(t, g)
    requires forall g :: g in s.engine.origin && g in s.creators ==> g in t.creators && t.creators[g] == s.creators[g]
    ensures LinksOk(env, t)
  {
    hide AttachmentOk, MessageOk, ReplyOk, Evolves, Outside;
    OutsideEvolves(s, t);
    OutsideRecords(s, t);
    forall a | a in t.attachments ensures AttachmentOk(env, t, a) {
      AttachmentStaysOk(env, s, t, a);
    }
    forall k | k in t.sent ensures MessageOk(t, k) {
      MessageStaysOk(s, t, k);
    }
    forall k | k in t.replies ensures ReplyOk(t, k) {
      if k != token {
        ReplyStaysOk(s, t, k);
      }
    }
    forall g | g in t.engine.origin ensures OriginOk(t, g) {
      if g in s.engine.origin {
        assert OriginOk(s, g);
        OriginStaysOk(s, t, g);
      }
    }
  }

  lemma OutsideRecords(s: System, t: System)
    requires Outside(s, t)
    ensures t.attachments == s.attachments
    ensures forall g :: g in s.engine.origin ==> g in t.engine.origin && t.engine.origin[g] == s.engine.origin[g]
  {}

  // Every dispatch of one scan carries the same target and ports, so the job
  // that holds its key is never in conflict with a retry.
  lemma RetryNeverConflicts(env: Env, s: System, token: Id, scannerId: Id)
    requires LinksOk(env, s) && Go.EngineOk(s.engine) && token in s.sent && scannerId !in s.engine.origin
    ensures var m := s.sent[token];
      var (engine, answer) := Go.Receive(s.engine, scannerId, m.config, Some(m.scan), s.clock);
      && !answer.Conflict?
      && (answer.Admitted? ==>
            && answer.job.request == m.config.request && answer.job.id in engine.origin
            && engine.origin[answer.job.id].key == Some(m.scan)
            && (answer.created ==> answer.job.id == scannerId
                                   && engine.origin == s.engine.origin[scannerId := Go.Origin(Some(m.scan), m.config)]))
      && (!(answer.Admitted? && answer.created) ==> engine == s.engine)
  {
    hide AttachmentOk, ReplyOk, Go.LimitsOk, Go.WellShaped;
    var m := s.sent[token];
    assert MessageOk(s, token);
    if m.scan in s.engine.store.keys {
      var holder := s.engine.store.keys[m.scan];
      Go.ReceiveKnown(s.engine, scannerId, m.config, m.scan, s.clock);
      assert Go.JobOk(s.engine, holder) && OriginOk(s, holder);
      HolderRequest(s, holder);
    } else {
      Go.ReceiveNew(s.engine, scannerId, m.config, Some(m.scan), s.clock);
    }
  }

  lemma HolderRequest(s: System, g: Id)
    requires g in s.engine.store.jobs && Go.JobOk(s.engine, g)
    ensures g in s.engine.origin && s.engine.store.jobs[g].request == s.engine.origin[g].config.request
    ensures s.engine.store.jobs[g].id == g
  {}

  lemma HandledReply(env: Env, s: System, t: System, token: Id, verdict: Option<FailureCode>, scannerId: Id)
    requires LinksOk(env, s) && Go.EngineOk(s.engine) && token in s.sent && scannerId !in s.engine.origin
    requires t == HandleStep(s, token, verdict, scannerId)
    ensures token in t.replies && ReplyOk(t, token)
    ensures forall g :: g in t.engine.origin && g !in s.engine.origin ==> OriginOk(t, g)
  {
    hide ReplyTo, Go.EngineOk, Go.Receive, RuleAdmits, OriginOk, LinksOk;
    LinkedMessage(env, s, token);
    if verdict.None? {
      RetryNeverConflicts(env, s, token, scannerId);
      AnsweredReply(s, t, token, scannerId);
    }
  }

  lemma LinkedMessage(env: Env, s: System, token: Id)
    requires LinksOk(env, s) && token in s.sent
    ensures MessageOk(s, token) && AttachmentOk(env, s, s.sent[token].attachment)
  {}

  lemma AnsweredReply(s: System, t: System, token: Id, scannerId: Id)
    requires token in s.sent && MessageOk(s, token) && scannerId !in s.engine.origin
    requires token in s.tokens && s.tokens[token] == s.sent[token].scan
    requires t == HandleStep(s, token, None, scannerId)
    requires var m := s.sent[token];
      var (engine, answer) := Go.Receive(s.engine, scannerId, m.config, Some(m.scan), s.clock);
      && !answer.Conflict?
      && (answer.Admitted? ==>
            && answer.job.request == m.config.request && answer.job.id in engine.origin
            && engine.origin[answer.job.id].key == Some(m.scan)
            && (answer.created ==> engine.origin == s.engine.origin[scannerId := Go.Origin(Some(m.scan), m.config)]))
      && (!(answer.Admitted? && answer.created) ==> engine == s.engine)
    ensures ReplyOk(t, token)
    ensures forall g :: g in t.engine.origin && g !in s.engine.origin ==> OriginOk(t, g)
  {
    hide Go.Receive;
  }

  lemma HandledOutside(s: System, t: System, token: Id, verdict: Option<FailureCode>, scannerId: Id)
    requires Go.EngineOk(s.engine) && token in s.sent && scannerId !in s.engine.origin && !s.refused
    requires t == HandleStep(s, token, verdict, scannerId)
    ensures Outside(s, t) && Go.EngineOk(t.engine) && t.sent == s.sent - {token} && t.dials == s.dials
    ensures forall k :: k in t.replies && k != token ==> k in s.replies && t.replies[k] == s.replies[k]
    ensures forall g :: g in s.engine.origin && g in s.creators ==> g in t.creators && t.creators[g] == s.creators[g]
  {
    hide Go.EngineOk, Go.Receive;
    var m := s.sent[token];
    Go.ReceivePreserves(s.engine, scannerId, m.config, Some(m.scan), s.clock);
    AdvancesOrigins(s.engine, Go.Receive(s.engine, scannerId, m.config, Some(m.scan), s.clock).0);
  }

  lemma AdvancesOrigins(a: Go.Engine, b: Go.Engine)
    requires Go.Advances(a, b)
    ensures forall g :: g in a.origin ==> g in b.origin && b.origin[g] == a.origin[g]
  {
    forall g | g in a.origin ensures g in b.origin && b.origin[g] == a.origin[g] {
      assert Go.JobAdvances(a, b, g);
    }
  }

  lemma HandlePreserves(env: Env, s: System, token: Id, verdict: Option<FailureCode>, scannerId: Id)
    requires CanHappen(s, HandleCreate(token, verdict, scannerId)) && Inv(env, s)
    ensures Keeps(env, s, HappenStep(s, HandleCreate(token, verdict, scannerId)))
  {
    hide JobsOk, ProcsOk, LocksOk, RoomOk, ScansDistinct, StrayOk, ClaimsOk, LinksOk, ResponsesOk, Go.EngineOk,
      HandleStep, Outside, OriginOk, ReplyOk, Keeps;
    var t := HappenStep(s, HandleCreate(token, verdict, scannerId));
    HandledOutside(s, t, token, verdict, scannerId);
    HandledReply(env, s, t, token, verdict, scannerId);
    ReceiveKeepsLinks(env, s, t, token);
    OutsidePreserves(env, s, t);
  }

  // ------------------------------------------------------------------- everything else

  // The scanner's own events create no job.
  lemma ScannerPreserves(env: Env, s: System, t: System)
    requires Inv(env, s) && t == s.(engine := t.engine) && Go.EngineOk(t.engine) && t.engine.origin == s.engine.origin
    ensures Keeps(env, s, t)
  {
    hide JobsOk, ProcsOk, LocksOk, RoomOk, ScansDistinct, StrayOk, ClaimsOk, LinksOk, ResponsesOk, Go.EngineOk,
      Evolves, Keeps;
    assert Outside(s, t);
    OutsideEvolves(s, t);
    LinksFrame(env, s, t);
    OutsidePreserves(env, s, t);
  }

  // A dial goes to a pin of the configuration the job was created with.
  lemma DialPreserves(env: Env, s: System, scannerId: Id, address: Address)
    requires CanHappen(s, ScannerDial(scannerId, address)) && Inv(env, s)
    ensures Keeps(env, s, HappenStep(s, ScannerDial(scannerId, address)))
  {
    hide JobsOk, ProcsOk, LocksOk, RoomOk, ScansDistinct, StrayOk, ClaimsOk, ResponsesOk, LinksOk, Go.EngineOk,
      Evolves, Keeps;
    var t := HappenStep(s, ScannerDial(scannerId, address));
    WorkerPins(s, scannerId);
    assert Outside(s, t);
    OutsideEvolves(s, t);
    OneMoreDial(env, s, t, scannerId, address);
    OutsidePreserves(env, s, t);
  }

  lemma WorkerPins(s: System, scannerId: Id)
    requires Go.EngineOk(s.engine) && scannerId in s.engine.workers
    ensures scannerId in s.engine.origin
    ensures s.engine.workers[scannerId].config == s.engine.origin[scannerId].config
  {
    hide Go.KeysOk, Go.LimitsOk, Go.JobOk;
    assert scannerId in Store.ActiveIds(s.engine.store.jobs);
  }

  lemma OneMoreDial(env: Env, s: System, t: System, scannerId: Id, address: Address)
    requires LinksOk(env, s) && t == s.(dials := s.dials + {(scannerId, address)})
    requires scannerId in s.engine.origin && address in s.engine.origin[scannerId].config.pins
    ensures LinksOk(env, t)
  {
    hide RuleAdmits;
    forall a | a in t.attachments ensures AttachmentOk(env, t, a) {
      assert AttachmentOk(env, s, a);
    }
    forall k | k in t.sent ensures MessageOk(t, k) {
      assert MessageOk(s, k);
    }
    forall k | k in t.replies ensures ReplyOk(t, k) {
      assert ReplyOk(s, k);
    }
    forall g | g in t.engine.origin ensures OriginOk(t, g) {
      assert OriginOk(s, g);
    }
  }

  lemma RulesPreserve(env: Env, s: System, t: System)
    requires Inv(env, s) && Outside(s, t) && t.engine == s.engine
    requires t.sent == s.sent && t.replies == s.replies && t.creators == s.creators && t.dials == s.dials
    ensures Keeps(env, s, t)
  {
    hide JobsOk, ProcsOk, LocksOk, RoomOk, ScansDistinct, StrayOk, ClaimsOk, LinksOk, ResponsesOk, Go.EngineOk,
      Evolves, Keeps, Outside;
    OutsideEvolves(s, t);
    OutsideRecords(s, t);
    LinksFrame(env, s, t);
    OutsidePreserves(env, s, t);
  }

  lemma HappenPreserves(env: Env, s: System, event: Event)
    requires CanHappen(s, event) && Inv(env, s)
    ensures Keeps(env, s, HappenStep(s, event))
  {
    hide JobsOk, ProcsOk, LocksOk, RoomOk, ScansDistinct, StrayOk, ClaimsOk, LinksOk, ResponsesOk, Go.EngineOk,
      Keeps, Go.Possible, Go.Start, Go.Finish, InsertBlocked, HandleStep;
    match event
    case Tick(elapsed) => RulesPreserve(env, s, HappenStep(s, event));
    case AddRule(rule, value) => RulesPreserve(env, s, HappenStep(s, event));
    case DisableRule(rule) => RulesPreserve(env, s, HappenStep(s, event));
    case BlockAtAdmission(scan, owner, request, code, matched, at) =>
      BlockPreserves(env, s, scan, owner, request, code, matched, at);
    case HandleCreate(token, verdict, scannerId) => HandlePreserves(env, s, token, verdict, scannerId);
    case ScannerStart(scannerId) => {
      Go.HandlePreserves(s.engine, Go.Starting(scannerId, s.clock));
      StartOrigin(s.engine, scannerId, s.clock);
      ScannerPreserves(env, s, HappenStep(s, event));
    }
    case ScannerFinish(scannerId, outcome) => {
      Go.HandlePreserves(s.engine, Go.Finishing(scannerId, outcome, s.clock));
      FinishOrigin(s.engine, scannerId, outcome, s.clock);
      ScannerPreserves(env, s, HappenStep(s, event));
    }
    case ScannerDial(scannerId, address) => DialPreserves(env, s, scannerId, address);
    case ScannerRestart => {
      Go.HandlePreserves(s.engine, Go.Restarting);
      ScannerPreserves(env, s, HappenStep(s, event));
    }
  }

  lemma StartOrigin(e: Go.Engine, id: Id, now: Time)
    requires Go.Possible(e, Go.Starting(id, now))
    ensures Go.Start(e, id, now).origin == e.origin
  {}

  lemma FinishOrigin(e: Go.Engine, id: Id, outcome: Go.Outcome, now: Time)
    ensures Go.Finish(e, id, outcome, now).origin == e.origin
  {}
}
