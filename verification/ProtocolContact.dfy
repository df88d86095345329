// When the scanner has accepted a scan, told from the messages it has handled;
// and so exactly when a blocked scan has reached it.
module ProtocolContact {
  import opened Collections
  import opened ScanTasks
  import opened ScanRecords
  import opened DispatchProtocol
  import opened ProtocolInvariant
  import opened ProtocolQuiet
  import opened ProtocolSafety
  import opened ProtocolAnswers
  import opened ProtocolFirstLease
  import Store = JobStore
  import Go = GoEngine

  // Action m is the scanner's handling of the create message sent under the
  // token for the scan: the target passes validation and a worker is free.
  ghost predicate Accepting(states: seq<System>, actions: seq<Action>, m: nat, token: Id, scan: Id) {
    && m < |actions| && |states| == |actions| + 1
    && actions[m].Happen? && actions[m].event.HandleCreate? && actions[m].event.token == token
    && actions[m].event.verdict.None?
    && token in states[m].sent && states[m].sent[token].scan == scan
    && |states[m].engine.workers.Keys| < states[m].engine.store.maxActive
  }

  ghost predicate Serves(s: System, g: Id, scan: Id) {
    g in s.engine.origin && s.engine.origin[g].key == Some(scan)
  }

  ghost predicate AcceptedBefore(states: seq<System>, actions: seq<Action>, n: nat, token: Id, scan: Id) {
    exists m: nat :: m < n && Accepting(states, actions, m, token, scan)
  }

  // Only the handling of a create message adds to the scanner's history.
  lemma HistoryStays(env: Env, s: System, a: Action)
    requires Enabled(env, s, a) && !(a.Happen? && a.event.HandleCreate?)
    ensures Apply(env, s, a).engine.origin == s.engine.origin && Apply(env, s, a).creators == s.creators
  {
    hide CanArrive, ArriveStep, CanProceed, ProceedStep, CanHappen, HappenStep;
    match a
    case Arrive(pid, arrival) => ArrivalIsMine(s, pid, arrival);
    case Proceed(pid, step) => StepIsMine(env, s, pid, step);
    case Happen(event) => EventsStay(s, event);
  }

  lemma EventsStay(s: System, event: Event)
    requires CanHappen(s, event) && !event.HandleCreate?
    ensures HappenStep(s, event).engine.origin == s.engine.origin && HappenStep(s, event).creators == s.creators
  {
    hide CanHappen, HappenStep;
    if event.ScannerStart? {
      StartStays(s, event.scannerId);
    } else {
      OtherEventsStay(s, event);
    }
  }

  lemma StartStays(s: System, scannerId: Id)
    requires CanHappen(s, ScannerStart(scannerId))
    ensures var t := HappenStep(s, ScannerStart(scannerId));
      t.engine.origin == s.engine.origin && t.creators == s.creators
  {
    hide Store.MarkRunning, HandleStep, InsertBlocked, Go.Finish, Go.Restart;
  }

  lemma OtherEventsStay(s: System, event: Event)
    requires CanHappen(s, event) && !event.HandleCreate? && !event.ScannerStart?
    ensures HappenStep(s, event).engine.origin == s.engine.origin && HappenStep(s, event).creators == s.creators
  {
    hide CanHappen, InsertBlocked, HandleStep, Go.Start, Store.MarkCompleted, Store.MarkFailed;
    match event
    case BlockAtAdmission(scan, owner, request, code, matched, at) =>
      BlockingStays(s, scan, owner, request, code, matched, at);
    case _ =>
  }

  lemma BlockingStays(s: System, scan: Id, owner: Subject, request: ScanRequest, code: FailureCode,
                      matched: Option<Id>, at: Time)
    requires CanHappen(s, BlockAtAdmission(scan, owner, request, code, matched, at))
    ensures var t := HappenStep(s, BlockAtAdmission(scan, owner, request, code, matched, at));
      t.engine == s.engine && t.creators == s.creators
  {
    hide CanHappen, InsertBlocked;
    match InsertBlocked(s.db, scan, owner, request, code, matched, at)
    case Applied(db) =>
    case _ =>
  }

  // Action m is the handling that created scanner job g, and t still knows it.
  ghost predicate Creating(states: seq<System>, actions: seq<Action>, m: nat, g: Id, t: System) {
    && m < |actions| && |states| == |actions| + 1
    && actions[m].Happen? && actions[m].event.HandleCreate? && actions[m].event.scannerId == g
    && actions[m].event.token in states[m].sent
    && var token := actions[m].event.token;
       var message := states[m].sent[token];
       && Accepting(states, actions, m, token, message.scan)
       && message.attachment.token == token && CreatedFrom(t, message, g)
  }

  // A scanner job that appears has been created as RetriesAreSafe says.
  lemma CreationAccepts(env: Env, states: seq<System>, actions: seq<Action>, m: nat, g: Id)
    requires Execution(env, states, actions) && Init(env, states[0]) && m < |actions|
    requires g in states[m + 1].engine.origin && g !in states[m].engine.origin
    ensures Creating(states, actions, m, g, states[m + 1])
  {
    hide Inv, Init, CanArrive, ArriveStep, CanProceed, ProceedStep, LinksOk, JobsOk, Go.EngineOk, CreatedFrom;
    var s, a := states[m], actions[m];
    assert Enabled(env, s, a) && states[m + 1] == Apply(env, s, a);
    if !(a.Happen? && a.event.HandleCreate?) {
      HistoryStays(env, s, a);
    } else {
      var token := a.event.token;
      RetriesAreSafe(env, states, actions, m, token, a.event.verdict, a.event.scannerId);
      OnlyItsOwn(s, token, a.event.verdict, a.event.scannerId, g);
      ReachableOk(env, states, actions, m);
      LinksOf(env, s);
      MessageToken(env, s, token);
    }
  }

  // Handling creates no other scanner job.
  lemma OnlyItsOwn(s: System, token: Id, verdict: Option<FailureCode>, scannerId: Id, g: Id)
    requires token in s.sent && g !in s.engine.origin
    ensures g in HandleStep(s, token, verdict, scannerId).engine.origin ==> g == scannerId
  {
    hide Store.Admit;
  }

  lemma CreatorsStay(env: Env, states: seq<System>, actions: seq<Action>, m: nat, g: Id)
    requires Execution(env, states, actions) && Init(env, states[0]) && m < |actions|
    requires g in states[m].engine.origin && g in states[m].creators
    ensures g in states[m + 1].creators && states[m + 1].creators[g] == states[m].creators[g]
  {
    hide Inv, Init, CanArrive, ArriveStep, CanProceed, ProceedStep;
    var s, a := states[m], actions[m];
    assert Enabled(env, s, a) && states[m + 1] == Apply(env, s, a);
    if !(a.Happen? && a.event.HandleCreate?) {
      HistoryStays(env, s, a);
    } else {
      HandlingKeepsCreators(s, a.event.token, a.event.verdict, a.event.scannerId, g);
    }
  }

  lemma HandlingKeepsCreators(s: System, token: Id, verdict: Option<FailureCode>, scannerId: Id, g: Id)
    requires token in s.sent && scannerId !in s.engine.origin && g in s.engine.origin && g in s.creators
    ensures var t := HandleStep(s, token, verdict, scannerId); g in t.creators && t.creators[g] == s.creators[g]
  {
    hide Go.Receive;
  }

  lemma CreatorKnown(env: Env, s: System, g: Id)
    requires Inv(env, s) && g in s.engine.origin
    ensures g in s.creators && s.creators[g] in s.attachments && s.engine.origin[g].key == Some(s.creators[g].scan)
    ensures AttachmentOk(env, s, s.creators[g])
  {
    hide Inv, JobsOk, Go.EngineOk, AttachmentOk, MessageOk, ReplyOk;
    LinksOf(env, s);
    assert OriginOk(s, g);
  }

  // Every scanner job there ever was has been created by the handling of one
  // message.
  lemma {:induction false} EveryJobWasCreated(env: Env, states: seq<System>, actions: seq<Action>, n: nat, g: Id)
    returns (m: nat)
    requires Execution(env, states, actions) && Init(env, states[0]) && n <= |actions|
    requires g in states[n].engine.origin
    ensures m < n && Creating(states, actions, m, g, states[n])
    decreases n
  {
    hide Inv, Init, Enabled, Apply, RowsEvolve, Accepting;
    if n == 0 {
      NoneAtFirst(env, states[0]);
    } else if g in states[n - 1].engine.origin {
      ReachableEvolves(env, states, actions, n - 1, n);
      m := EveryJobWasCreated(env, states, actions, n - 1, g);
      CreatorsStay(env, states, actions, n - 1, g);
    } else {
      m := n - 1;
      CreationAccepts(env, states, actions, n - 1, g);
    }
  }

  lemma NoneAtFirst(env: Env, s: System)
    requires Init(env, s)
    ensures s.engine.origin == map[]
  {}

  // And every such message leaves the scan served.
  lemma AcceptingServes(env: Env, states: seq<System>, actions: seq<Action>, m: nat, token: Id, scan: Id)
    returns (g: Id)
    requires Execution(env, states, actions) && Init(env, states[0]) && Accepting(states, actions, m, token, scan)
    ensures Serves(states[m + 1], g, scan)
  {
    hide Inv, Init, CanArrive, ArriveStep, CanProceed, ProceedStep, RowsEvolve;
    var s, e := states[m], actions[m].event;
    assert Enabled(env, s, actions[m]) && states[m + 1] == Apply(env, s, actions[m]);
    RetriesAreSafe(env, states, actions, m, token, e.verdict, e.scannerId);
    if RetainsNone(s, scan) {
      g := e.scannerId;
    } else {
      g :| Retained(s, scan, g);
      ReachableEvolves(env, states, actions, m, m + 1);
    }
  }

  // The scanner has accepted a scan exactly when it has handled a create message
  // for it whose target passed validation while a worker was free.
  lemma AcceptedExactlyWhen(env: Env, states: seq<System>, actions: seq<Action>, n: nat, scan: Id)
    requires Execution(env, states, actions) && Init(env, states[0]) && n <= |actions|
    ensures (exists g :: Serves(states[n], g, scan)) <==>
      (exists token :: AcceptedBefore(states, actions, n, token, scan))
  {
    hide Inv, Init, Enabled, Apply, Accepting, RowsEvolve;
    if g :| Serves(states[n], g, scan) {
      var m := EveryJobWasCreated(env, states, actions, n, g);
      assert AcceptedBefore(states, actions, n, actions[m].event.token, scan);
    }
    if token :| AcceptedBefore(states, actions, n, token, scan) {
      var m: nat :| m < n && Accepting(states, actions, m, token, scan);
      var g := AcceptingServes(env, states, actions, m, token, scan);
      ReachableEvolves(env, states, actions, m + 1, n);
      assert Serves(states[n], g, scan);
    }
  }

  // An earlier claim of the scan than its last.
  ghost predicate EarlierClaim(s: System, scan: Id, token: Id) {
    scan in s.claims && token in s.claims[scan] && s.claims[scan] != [] && token != LastClaim(s, scan)
  }

  // Hence a blocked scan has reached the scanner exactly when such a message was
  // sent under a claim before its last one: the lease under which it was blocked
  // never told the scanner anything.
  lemma BlockedAfterContact(env: Env, states: seq<System>, actions: seq<Action>, n: nat, scan: Id)
    requires Execution(env, states, actions) && Init(env, states[0]) && n <= |actions|
    requires scan in states[n].db.jobs && states[n].db.jobs[scan].status == BLOCKED
    ensures (exists g :: Serves(states[n], g, scan)) <==>
      (exists token :: EarlierClaim(states[n], scan, token) && AcceptedBefore(states, actions, n, token, scan))
  {
    hide Inv, Init, Enabled, Apply, AcceptedBefore, Creating, EarlierClaim;
    AcceptedExactlyWhen(env, states, actions, n, scan);
    if g :| Serves(states[n], g, scan) {
      var m := EveryJobWasCreated(env, states, actions, n, g);
      ReachableOk(env, states, actions, n);
      ReachablePhases(env, states, actions, n);
      CreatorIsEarlier(env, states[n], g, scan);
      CreatingAccepts(states, actions, m, n, g, scan);
    }
  }

  lemma CreatingAccepts(states: seq<System>, actions: seq<Action>, m: nat, n: nat, g: Id, scan: Id)
    requires n < |states| && m < n && Creating(states, actions, m, g, states[n]) && Serves(states[n], g, scan)
    ensures AcceptedBefore(states, actions, n, actions[m].event.token, scan)
    ensures g in states[n].creators && states[n].creators[g].token == actions[m].event.token
  {
    hide Accepting;
  }

  lemma CreatorIsEarlier(env: Env, s: System, g: Id, scan: Id)
    requires Inv(env, s) && Phases(s) && Serves(s, g, scan)
    requires scan in s.db.jobs && s.db.jobs[scan].status == BLOCKED
    ensures g in s.creators && EarlierClaim(s, scan, s.creators[g].token)
  {
    hide Inv, ProcsPhase, MessagesPhase, RuleAdmits;
    CreatorKnown(env, s, g);
    assert BlockedClaimed(s, scan) ==> NeverTold(s, LastClaim(s, scan));
  }
}
