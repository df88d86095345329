// Every poll, while anything else goes on around it: other requests, the
// scanner's work, restarts, and the passing of time.
module ProtocolEveryPoll {
  import opened Collections
  import opened ScanTasks
  import opened ScanRecords
  import opened DispatchProtocol
  import opened ProtocolInvariant
  import opened ProtocolSteps
  import opened ProtocolQuiet
  import opened ProtocolLeases
  import opened ProtocolSafety
  import opened ProtocolPoll
  import opened ProtocolProgress
  import opened ProtocolAnswers
  import opened ProtocolFirstLease
  import opened ProtocolTenure
  import Store = JobStore
  import Go = GoEngine

  // The request pid polls the scan from its arrival at i, and is there up to n.
  ghost predicate PollLife(states: seq<System>, actions: seq<Action>, i: nat, n: nat, pid: Id, scan: Id) {
    && i <= n < |actions| && |states| == |actions| + 1
    && actions[i] == Arrive(pid, Poll(scan))
    && forall k :: i < k <= n ==> pid in states[k].procs
  }

  predicate Moves(a: Action, pid: Id) {
    a.Proceed? && a.pid == pid
  }

  predicate Records(step: Step) {
    step.RecordDispatch? || step.RecordFailure?
  }

  // What stops a dispatch: giving up on the scanner's answer, a scanner that is
  // full, and somebody else's lease on the row.
  ghost predicate StepUntroubled(s: System, pid: Id, step: Step) {
    pid in s.procs ==>
      && var p := s.procs[pid];
         && step != GiveUp
         && (step.ReceiveCreate? && p.pc.DispatchAwait? && p.pc.token in s.replies ==> !s.replies[p.pc.token].Limited?)
         && (step.Claim? && p.scan in s.db.jobs && s.db.jobs[p.scan].status == QUEUED ==>
               s.db.jobs[p.scan].leaseExpires.None? || s.db.jobs[p.scan].leaseExpires.value <= step.at)
  }

  ghost predicate Untroubled(states: seq<System>, actions: seq<Action>, i: nat, n: nat, pid: Id) {
    forall m :: i < m <= n && m < |actions| && m < |states| && Moves(actions[m], pid) ==>
      StepUntroubled(states[m], pid, actions[m].step)
  }

  // What it records, it records before the lease it has claimed expires.
  ghost predicate InTime(env: Env, states: seq<System>, actions: seq<Action>, i: nat, n: nat, pid: Id) {
    forall c, m | i < c < m <= n && m < |actions| && m < |states| ::
      Moves(actions[c], pid) && Moves(actions[m], pid) ==>
      actions[c].step.Claim? && Records(actions[m].step) ==> states[m].clock < Expiry(env, actions[c])
  }

  predicate FetchOver(s: System, pid: Id, step: Step) {
    step == Fetch(Reached) && pid in s.procs && s.procs[pid].pc.PollFetch? ==>
      s.procs[pid].pc.scannerId !in s.engine.workers
  }

  // Whenever it reaches the scanner, the job it asks for is not at work.
  ghost predicate FetchesOver(states: seq<System>, actions: seq<Action>, i: nat, n: nat, pid: Id) {
    forall m :: i < m <= n && m < |actions| && m < |states| && Moves(actions[m], pid) ==>
      FetchOver(states[m], pid, actions[m].step)
  }

  // --------------------------------------------------------------- after the dispatch

  ghost predicate PastQueue(s: System, scan: Id) {
    scan in s.db.jobs && s.db.jobs[scan].status != QUEUED
  }

  predicate LatePc(pc: Pc) {
    pc.DispatchReturned? || pc.PollFetch? || pc.PollSynchronize? || pc.PollFail? || pc == PollMismatch
    || pc.PollRefresh? || pc.PollResults? || pc == Ended
  }

  // The row has left the queue; and if the scanner's job is over whenever it is
  // asked for, the poll has not asked yet or is about to settle the row.
  ghost predicate Late(s: System, pid: Id, scan: Id, over: bool) {
    && pid in s.procs && s.procs[pid].scan == scan && PastQueue(s, scan) && LatePc(s.procs[pid].pc)
    && (over ==> s.procs[pid].pc.DispatchReturned? || s.procs[pid].pc.PollFetch? || Settling(s, pid))
  }

  // What the poll tells its caller.
  ghost predicate TellsLate(s: System, t: System, scan: Id, over: bool) {
    forall r :: t.responses == s.responses + [r] ==>
      r.scan == scan && r.job.status != QUEUED && (over ==> IsTerminal(r.job))
  }

  lemma NoAnswer(s: System, t: System, scan: Id, over: bool)
    requires t.responses == s.responses
    ensures TellsLate(s, t, scan, over)
  {
    forall r ensures t.responses != s.responses + [r] {
      assert |s.responses + [r]| == |s.responses| + 1;
    }
  }

  lemma TellsJob(s: System, t: System, scan: Id, over: bool, given: Response)
    requires t.responses == s.responses + [given] && given.scan == scan && given.job.status != QUEUED
    requires over ==> IsTerminal(given.job)
    ensures TellsLate(s, t, scan, over)
  {
    OneAppended(s.responses, given);
  }

  lemma QueueStaysPast(s: System, t: System, scan: Id)
    requires Evolves(s, t) && PastQueue(s, scan)
    ensures PastQueue(t, scan)
  {
    hide RecordsGrow;
    assert JobEvolves(s.db.jobs[scan], t.db.jobs[scan]);
  }

  lemma LateMoves(s: System, pid: Id, scan: Id, pc: Pc, over: bool)
    requires pid in s.procs && s.procs[pid].scan == scan && PastQueue(s, scan) && LatePc(pc)
    requires over ==> pc.DispatchReturned? || pc.PollFetch? || Settling(Move(s, pid, pc), pid)
    ensures Late(Move(s, pid, pc), pid, scan, over) && TellsLate(s, Move(s, pid, pc), scan, over)
  {
    hide Settling, TellsLate;
    NoAnswer(s, Move(s, pid, pc), scan, over);
  }

  lemma LateAnswers(s: System, pid: Id, scan: Id, job: Job, over: bool)
    requires pid in s.procs && s.procs[pid].scan == scan && PastQueue(s, scan)
    requires job.status != QUEUED && (over ==> IsTerminal(job))
    ensures var t := Answer(s, pid, job);
      (pid in t.procs ==> Late(t, pid, scan, over)) && TellsLate(s, t, scan, over)
  {
    hide Move, Respond, Mine, Late, TellsLate, Settling;
    if job.status == COMPLETED {
      CompletedSettles(s, pid, job);
      LateMoves(s, pid, scan, PollResults(job), over);
    } else {
      var p := s.procs[pid];
      RespondIsMine(s, pid, job, map[], false);
      TellsJob(s, Respond(s, pid, job, map[], false), scan, over, Response(p.scan, job, map[], false, p.begun));
    }
  }

  lemma CompletedSettles(s: System, pid: Id, job: Job)
    requires pid in s.procs && job.status == COMPLETED
    ensures Settling(Move(s, pid, PollResults(job)), pid)
  {}

  // The step of a request keeps the row past the queue, and tells a late row if
  // it tells any.
  ghost predicate StaysLate(s: System, t: System, pid: Id, scan: Id, over: bool) {
    (pid in t.procs ==> Late(t, pid, scan, over)) && TellsLate(s, t, scan, over)
  }

  lemma LateReload(s: System, pid: Id, scan: Id, over: bool)
    requires Late(s, pid, scan, over) && RowChecks(s.db.jobs[scan])
    ensures StaysLate(s, ReloadStep(s, pid), pid, scan, over)
  {
    hide Move, Answer, Late, TellsLate, Settling;
    assert PastQueue(s, scan) && s.procs[pid].scan == scan by { LateIs(s, pid, scan, over); }
    var job := s.db.jobs[scan];
    if job.scannerId.Some? {
      LateMoves(s, pid, scan, PollFetch(job.scannerId.value, job), over);
    } else {
      LateAnswers(s, pid, scan, job, over);
    }
  }

  lemma LateIs(s: System, pid: Id, scan: Id, over: bool)
    requires Late(s, pid, scan, over)
    ensures pid in s.procs && s.procs[pid].scan == scan && PastQueue(s, scan) && LatePc(s.procs[pid].pc)
    ensures over ==> s.procs[pid].pc.DispatchReturned? || s.procs[pid].pc.PollFetch? || Settling(s, pid)
  {
    hide Settling;
  }

  lemma FetchedIsLate(env: Env, s: System, pid: Id, scan: Id, outcome: FetchOutcome, over: bool)
    requires Inv(env, s) && CanProceed(env, s, pid, Fetch(outcome)) && Late(s, pid, scan, over)
    requires over ==> FetchOver(s, pid, Fetch(outcome))
    ensures StaysLate(s, ProceedStep(env, s, pid, Fetch(outcome)), pid, scan, over)
  {
    hide Inv, CanProceed, ProceedStep, AfterFetch, Late, Settling, TellsLate, Move;
    LateIs(s, pid, scan, over);
    FetchSees(env, s, pid, outcome);
    var p := s.procs[pid];
    match outcome
    case Reached =>
      if over {
        SettlingFetch(env, s, pid);
      }
      LateMoves(s, pid, scan, AfterFetch(s, p.pc.scannerId, p.pc.job), over);
    case Unreachable =>
      EndsSettle(s, pid);
      LateMoves(s, pid, scan, Ended, over);
    case Garbled =>
      EndsSettle(s, pid);
      LateMoves(s, pid, scan, PollFail(InternalError), over);
  }

  lemma EndsSettle(s: System, pid: Id)
    requires pid in s.procs
    ensures Settling(Move(s, pid, Ended), pid) && Settling(Move(s, pid, PollFail(InternalError)), pid)
  {}

  lemma SynchronizedIsLate(s: System, t: System, pid: Id, scan: Id, at: Time, over: bool)
    requires Late(s, pid, scan, over) && Evolves(s, t)
    requires s.procs[pid].pc.PollSynchronize? || s.procs[pid].pc.PollFail? || s.procs[pid].pc == PollMismatch
    requires t == SynchronizeStep(s, pid, at) && s.db.jobs[scan].owner == s.procs[pid].owner
    ensures StaysLate(s, t, pid, scan, over)
  {
    hide SynchronizeStep, TellsLate, Settling, Evolves, Mine, PastQueue, Held;
    LateIs(s, pid, scan, over);
    PastIn(s, scan);
    SynchronizeStays(s, pid, at);
    SynchronizeIsKeeping(s, pid, at);
    QueueStaysPast(s, t, scan);
    NoAnswer(s, t, scan, over);
    if over {
      SettledByWrite(s, pid, at);
    }
  }

  lemma PastIn(s: System, scan: Id)
    requires PastQueue(s, scan)
    ensures scan in s.db.jobs
  {}

  lemma RefreshedIsLate(s: System, pid: Id, scan: Id, over: bool)
    requires Late(s, pid, scan, over) && s.procs[pid].pc.PollRefresh?
    ensures StaysLate(s, RefreshStep(s, pid), pid, scan, over)
  {
    hide Respond, Answer, TellsLate, Mine;
    var p, job := s.procs[pid], s.db.jobs[scan];
    LateAnswers(s, pid, scan, job, over);
    RespondIsMine(s, pid, job, map[], true);
    TellsJob(s, Respond(s, pid, job, map[], true), scan, over, Response(p.scan, job, map[], true, p.begun));
  }

  lemma ReadIsLate(s: System, pid: Id, scan: Id, over: bool)
    requires Late(s, pid, scan, over) && s.procs[pid].pc.PollResults? && s.procs[pid].pc.job.status == COMPLETED
    ensures StaysLate(s, Respond(s, pid, s.procs[pid].pc.job, ResultsOf(s.db, s.procs[pid].scan), false),
                      pid, scan, over)
  {
    hide Respond, TellsLate, Mine, Settling, ResultsOf;
    var p, results := s.procs[pid], ResultsOf(s.db, s.procs[pid].scan);
    RespondIsMine(s, pid, p.pc.job, results, false);
    TellsJob(s, Respond(s, pid, p.pc.job, results, false), scan, over,
             Response(p.scan, p.pc.job, results, false, p.begun));
  }

  lemma LateFrom(env: Env, s: System, pid: Id, step: Step)
    requires CanProceed(env, s, pid, step) && LatePc(s.procs[pid].pc)
    ensures step == Reload || step.Fetch? || step.Synchronize? || step == Refresh || step == ReadResults || step == Stop
    ensures step == Reload ==> s.procs[pid].pc == DispatchReturned
    ensures step.Synchronize? ==>
      s.procs[pid].pc.PollSynchronize? || s.procs[pid].pc.PollFail? || s.procs[pid].pc == PollMismatch
    ensures step == Refresh ==> s.procs[pid].pc.PollRefresh?
    ensures step == ReadResults ==> s.procs[pid].pc.PollResults?
  {
    hide RuleAdmits;
  }

  lemma ReadsCompleted(env: Env, s: System, pid: Id)
    requires Inv(env, s) && pid in s.procs && s.procs[pid].pc.PollResults?
    ensures s.procs[pid].pc.job.status == COMPLETED
  {
    hide Inv, ServingOk;
    PcOf(env, s, pid);
    ReadyToRead(env, s, s.procs[pid], s.procs[pid].pc.job);
  }

  lemma LateServes(env: Env, s: System, pid: Id, scan: Id, over: bool)
    requires Inv(env, s) && Late(s, pid, scan, over)
    ensures scan in s.db.jobs && s.db.jobs[scan].owner == s.procs[pid].owner && RowChecks(s.db.jobs[scan])
  {
    hide Inv, ServingOk, Settling, RowChecks, LinkOk, HistoryOk, StoredOk;
    PcOf(env, s, pid);
    ServingScan(env, s, s.procs[pid]);
    RowIsOk(env, s, scan);
  }

  lemma LateOwn(env: Env, s: System, pid: Id, step: Step, scan: Id, over: bool)
    requires Inv(env, s) && CanProceed(env, s, pid, step) && Late(s, pid, scan, over)
    requires Evolves(s, ProceedStep(env, s, pid, step)) && (over ==> FetchOver(s, pid, step))
    ensures StaysLate(s, ProceedStep(env, s, pid, step), pid, scan, over)
  {
    hide Inv, Evolves, RuleAdmits, SynchronizeStep, RefreshStep, Respond, Drop, Unlock, TakeLockStep, CountStep,
      ClaimStep, CommitStep, AttachStep, SendStep, AuthorizeStep, ReceiveStep, RecordDispatchStep, RecordFailureStep,
      ReloadStep, FetchStep, Move, ResultsOf, Mine, Settling, Late, TellsLate, RowChecks;
    LateIs(s, pid, scan, over);
    LateFrom(env, s, pid, step);
    LateServes(env, s, pid, scan, over);
    match step
    case Reload => LateReload(s, pid, scan, over);
    case Fetch(outcome) => FetchedIsLate(env, s, pid, scan, outcome, over);
    case Synchronize(at) => SynchronizedIsLate(s, SynchronizeStep(s, pid, at), pid, scan, at, over);
    case Refresh => RefreshedIsLate(s, pid, scan, over);
    case ReadResults =>
      ReadsCompleted(env, s, pid);
      ReadIsLate(s, pid, scan, over);
    case Stop =>
      StopEnds(env, s, pid);
      StoppingAnswersNothing(env, s, pid);
      NoAnswer(s, Drop(Unlock(env, s, pid), pid), scan, over);
  }

  lemma LateOther(env: Env, s: System, a: Action, t: System, pid: Id, scan: Id, over: bool)
    requires Enabled(env, s, a) && t == Apply(env, s, a) && !Acts(a, pid) && Evolves(s, t) && Late(s, pid, scan, over)
    ensures Late(t, pid, scan, over)
  {
    hide Enabled, Apply, Acts, Evolves, PastQueue, Settling;
    Untouched(env, s, a, pid);
    QueueStaysPast(s, t, scan);
    if over && Settling(s, pid) {
      SettlingOther(env, s, a, t, pid);
    }
  }

  lemma LateStep(env: Env, s: System, a: Action, pid: Id, scan: Id, over: bool)
    requires Inv(env, s) && Enabled(env, s, a) && Late(s, pid, scan, over)
    requires over && Moves(a, pid) ==> FetchOver(s, pid, a.step)
    ensures pid in Apply(env, s, a).procs ==> Late(Apply(env, s, a), pid, scan, over)
    ensures Acts(a, pid) ==> TellsLate(s, Apply(env, s, a), scan, over)
  {
    hide Inv, Evolves, CanProceed, ProceedStep, CanArrive, ArriveStep, CanHappen, HappenStep, Late, TellsLate,
      FetchOver;
    StepPreserves(env, s, a);
    LateIs(s, pid, scan, over);
    if Moves(a, pid) {
      LateOwn(env, s, pid, a.step, scan, over);
    } else if Acts(a, pid) {
      ArrivalsAreNew(s, a.pid, a.arrival);
    } else {
      LateOther(env, s, a, Apply(env, s, a), pid, scan, over);
    }
  }

  lemma ArrivalsAreNew(s: System, pid: Id, arrival: Arrival)
    requires CanArrive(s, pid, arrival)
    ensures pid !in s.procs
  {}

  // ------------------------------------------------------------- before and during it

  // The poll has claimed the row, and works under that claim.
  ghost predicate Working(env: Env, states: seq<System>, actions: seq<Action>, i: nat, n: nat, pid: Id, scan: Id,
                          token: Id)
  {
    exists c: nat :: i < c < n && ClaimedAt(env, states, actions, c, pid, scan, token)
  }

  // Where an untroubled poll may stand.
  ghost predicate OnCourse(env: Env, states: seq<System>, actions: seq<Action>, i: nat, n: nat, pid: Id, scan: Id,
                           over: bool)
    requires n < |states|
  {
    || Late(states[n], pid, scan, over)
    || (&& pid in states[n].procs && states[n].procs[pid].scan == scan
        && var pc := states[n].procs[pid].pc;
           || pc == DispatchClaim
           || (Held(pc).Some? && Working(env, states, actions, i, n, pid, scan, Held(pc).value)))
  }

  lemma ClaimsOrStops(env: Env, s: System, pid: Id, step: Step)
    requires CanProceed(env, s, pid, step) && s.procs[pid].pc == DispatchClaim
    ensures step.Claim? || step == Stop
    ensures step.Claim? ==> step.token !in s.tokens && s.procs[pid].since <= step.at <= s.clock
  {
    hide RuleAdmits;
  }

  // A queued row with a free lease is claimed; any other is past the queue.
  lemma ClaimOutcome(env: Env, s: System, pid: Id, token: Id, at: Time, over: bool)
    requires Inv(env, s) && CanProceed(env, s, pid, Claim(token, at)) && s.procs[pid].pc == DispatchClaim
    requires StepUntroubled(s, pid, Claim(token, at))
    ensures var scan, t := s.procs[pid].scan, ProceedStep(env, s, pid, Claim(token, at));
      if ClaimDispatch(s.db, scan, token, env.leaseSeconds, at).Applied? then Works(t, pid, scan, token)
      else Late(t, pid, scan, over)
  {
    hide Inv, ServingOk, RowChecks, LinkOk, HistoryOk, StoredOk, JobsOk, LinksOk, Go.EngineOk, Settle, Put, Held,
      RuleAdmits, Works, LeasedJob;
    var p := s.procs[pid];
    PcOf(env, s, pid);
    ServingScan(env, s, p);
    LinksOf(env, s);
    RowIsOk(env, s, p.scan);
    if s.db.jobs[p.scan].status == QUEUED {
      QueuedHasNoScanner(s.db.jobs[p.scan]);
      ClaimApplies(env, s, p, token, at);
      ClaimStarts(env, s, pid, token, at);
    } else {
      LostClaimIsLate(env, s, pid, token, at, over);
    }
  }

  lemma LostClaimIsLate(env: Env, s: System, pid: Id, token: Id, at: Time, over: bool)
    requires CanProceed(env, s, pid, Claim(token, at)) && PastQueue(s, s.procs[pid].scan)
    ensures ClaimDispatch(s.db, s.procs[pid].scan, token, env.leaseSeconds, at) == Unchanged
    ensures Late(ProceedStep(env, s, pid, Claim(token, at)), pid, s.procs[pid].scan, over)
  {
    hide Put, RuleAdmits;
    assert ProceedStep(env, s, pid, Claim(token, at)) == ClaimStep(env, s, pid, token, at);
  }

  // Only by recording does an untroubled holder let go of its token.
  lemma HoldersLetGo(env: Env, s: System, pid: Id, step: Step)
    requires CanProceed(env, s, pid, step) && Held(s.procs[pid].pc).Some? && StepUntroubled(s, pid, step)
    requires pid in s.procs && LinksOk(env, s) && ServingOk(env, s, s.procs[pid]) && !Records(step)
    requires pid in ProceedStep(env, s, pid, step).procs
    ensures Held(ProceedStep(env, s, pid, step).procs[pid].pc) == Held(s.procs[pid].pc)
  {
    hide TakeLockStep, CountStep, ClaimStep, CommitStep, RecordDispatchStep, RecordFailureStep, ReloadStep, FetchStep,
      SynchronizeStep, RefreshStep, Respond, RuleAdmits, LinksOk, ServingOk, AttachStep, AuthorizeStep, SendStep,
      ReceiveStep, Move, Drop, Unlock, Mine;
    var p := s.procs[pid];
    match step
    case Authorize(decision, at) => AuthorizeHolds(s, pid, decision);
    case Attach(at) => AttachHolds(s, pid, at);
    case SendCreate => SendHolds(s, pid);
    case ReceiveCreate => ReceiveHolds(env, s, pid);
    case Misread => MoveIsMine(s, pid, DispatchFail(p.pc.token, InternalError, false));
    case Stop => StopEnds(env, s, pid);
    case _ =>
  }

  lemma AuthorizeHolds(s: System, pid: Id, decision: Decision)
    requires pid in s.procs && s.procs[pid].pc.DispatchAuthorize?
    ensures var t := AuthorizeStep(s, pid, decision); pid in t.procs && Held(t.procs[pid].pc) == Held(s.procs[pid].pc)
  {}

  lemma SendHolds(s: System, pid: Id)
    requires pid in s.procs && s.procs[pid].pc.DispatchSend?
    ensures var t := SendStep(s, pid); pid in t.procs && Held(t.procs[pid].pc) == Held(s.procs[pid].pc)
  {}

  lemma AttachHolds(s: System, pid: Id, at: Time)
    requires pid in s.procs && s.procs[pid].pc.DispatchAttach?
    ensures var t := AttachStep(s, pid, at); pid in t.procs ==> Held(t.procs[pid].pc) == Held(s.procs[pid].pc)
  {
    hide Settle, Put, Mine;
    var p := s.procs[pid];
    var w := AttachAllowedTarget(s.db, p.scan, p.pc.rule, p.pc.token, at);
    var failed := DispatchFail(p.pc.token, BlockedTarget, true);
    if w.Applied? {
      var a := Attachment(p.pc.token, p.scan, p.pc.rule, s.db.rules[p.pc.rule], at, p.pc.pins);
      SettleIsMine(s.(attachments := s.attachments + {a}), pid, w, DispatchSend(a), failed);
    } else {
      SettleIsMine(s, pid, w, failed, failed);
    }
  }

  lemma ReceiveHolds(env: Env, s: System, pid: Id)
    requires pid in s.procs && s.procs[pid].pc.DispatchAwait? && s.procs[pid].pc.token in s.replies
    requires !s.replies[s.procs[pid].pc.token].Limited?
    ensures var t := ReceiveStep(s, pid); pid in t.procs && Held(t.procs[pid].pc) == Held(s.procs[pid].pc)
  {
    hide Move, Mine;
    var p, token := s.procs[pid], s.procs[pid].pc.token;
    MoveIsMine(s, pid, AfterReply(p, token, s.replies[token]));
  }

  predicate Dispatching(pc: Pc) {
    pc == DispatchClaim || Held(pc).Some?
  }

  lemma DispatchingIsEarly(env: Env, s: System, pid: Id, step: Step)
    requires CanProceed(env, s, pid, step) && Dispatching(s.procs[pid].pc)
    ensures pid in s.procs && IsEarly(step) && ProceedStep(env, s, pid, step).responses == s.responses
  {
    hide ProceedStep, RuleAdmits, Mine;
    EarlyStays(env, s, pid, step);
  }

  lemma ClaimNext(env: Env, states: seq<System>, actions: seq<Action>, i: nat, n: nat, pid: Id, scan: Id, over: bool)
    requires Execution(env, states, actions) && Init(env, states[0]) && i < n < |actions| && Moves(actions[n], pid)
    requires pid in states[n].procs && states[n].procs[pid].scan == scan && states[n].procs[pid].pc == DispatchClaim
    requires StepUntroubled(states[n], pid, actions[n].step)
    ensures pid in states[n + 1].procs ==> OnCourse(env, states, actions, i, n + 1, pid, scan, over)
  {
    hide Inv, Init, CanProceed, ProceedStep, StepUntroubled, Late, ClaimDispatch;
    assert Enabled(env, states[n], actions[n]) && states[n + 1] == Apply(env, states[n], actions[n]);
    ReachableOk(env, states, actions, n);
    var step := actions[n].step;
    ClaimsOrStops(env, states[n], pid, step);
    if step.Claim? {
      ClaimOutcome(env, states[n], pid, step.token, step.at, over);
      if ClaimDispatch(states[n].db, scan, step.token, env.leaseSeconds, step.at).Applied? {
        assert ClaimedAt(env, states, actions, n, pid, scan, step.token);
      }
    } else {
      StopIs(env, states[n], pid);
      StopEnds(env, states[n], pid);
    }
  }

  lemma RecordNext(env: Env, states: seq<System>, actions: seq<Action>, i: nat, n: nat, pid: Id, scan: Id, token: Id,
                   over: bool)
    requires Execution(env, states, actions) && Init(env, states[0]) && i < n < |actions| && Moves(actions[n], pid)
    requires pid in states[n].procs && Held(states[n].procs[pid].pc) == Some(token) && Records(actions[n].step)
    requires Working(env, states, actions, i, n, pid, scan, token) && InTime(env, states, actions, i, n, pid)
    ensures pid in states[n + 1].procs ==> Late(states[n + 1], pid, scan, over)
  {
    hide Inv, Init, CanProceed, ProceedStep, ClaimDispatch, Held, Settling;
    assert Enabled(env, states[n], actions[n]) && states[n + 1] == Apply(env, states[n], actions[n]);
    var c: nat :| i < c < n && ClaimedAt(env, states, actions, c, pid, scan, token);
    assert Moves(actions[c], pid) && actions[c].step.Claim?;
    assert states[n].clock < Expiry(env, actions[c]);
    HoldersKeepTheirLease(env, states, actions, c, n, pid, scan, token);
    RecordsAreApplied(env, states, actions, c, n, pid, scan, token);
    RecordEndsWork(env, states[n], pid, actions[n].step);
    StepIsKeeping(env, states[n], pid, actions[n].step);
  }

  lemma HoldingNext(env: Env, states: seq<System>, actions: seq<Action>, i: nat, n: nat, pid: Id, scan: Id, token: Id,
                    over: bool)
    requires Execution(env, states, actions) && Init(env, states[0]) && i < n < |actions| && Moves(actions[n], pid)
    requires pid in states[n].procs && Held(states[n].procs[pid].pc) == Some(token) && !Records(actions[n].step)
    requires Working(env, states, actions, i, n, pid, scan, token) && states[n].procs[pid].scan == scan
    requires StepUntroubled(states[n], pid, actions[n].step)
    ensures pid in states[n + 1].procs ==> OnCourse(env, states, actions, i, n + 1, pid, scan, over)
  {
    hide Inv, Init, CanProceed, ProceedStep, ClaimedAt, Held, Late, LinksOk, JobsOk, Go.EngineOk, ServingOk,
      StepUntroubled;
    assert Enabled(env, states[n], actions[n]) && states[n + 1] == Apply(env, states[n], actions[n]);
    ReachableOk(env, states, actions, n);
    LinksOf(env, states[n]);
    HoldersServe(env, states[n], pid);
    var c: nat :| i < c < n && ClaimedAt(env, states, actions, c, pid, scan, token);
    if pid in states[n + 1].procs {
      HoldersLetGo(env, states[n], pid, actions[n].step);
      StepIsKeeping(env, states[n], pid, actions[n].step);
    }
  }

  lemma HoldersServe(env: Env, s: System, pid: Id)
    requires Inv(env, s) && pid in s.procs && Held(s.procs[pid].pc).Some?
    ensures ServingOk(env, s, s.procs[pid])
  {
    hide Inv, ServingOk;
    PcOf(env, s, pid);
  }

  // One more step of anybody, in the life of an untroubled poll.
  lemma CourseNext(env: Env, states: seq<System>, actions: seq<Action>, i: nat, n: nat, pid: Id, scan: Id, over: bool)
    requires Execution(env, states, actions) && Init(env, states[0]) && i < n < |actions|
    requires OnCourse(env, states, actions, i, n, pid, scan, over)
    requires Moves(actions[n], pid) ==> StepUntroubled(states[n], pid, actions[n].step)
    requires InTime(env, states, actions, i, n, pid)
    requires over && Moves(actions[n], pid) ==> FetchOver(states[n], pid, actions[n].step)
    ensures pid in states[n + 1].procs ==> OnCourse(env, states, actions, i, n + 1, pid, scan, over)
    ensures Acts(actions[n], pid) ==> TellsLate(states[n], states[n + 1], scan, over)
  {
    hide Inv, Init, CanProceed, ProceedStep, CanArrive, ArriveStep, CanHappen, HappenStep, Held, Late, TellsLate,
      InTime, ClaimedAt, FetchOver, StepUntroubled;
    var s, a := states[n], actions[n];
    assert Enabled(env, s, a) && states[n + 1] == Apply(env, s, a);
    ReachableOk(env, states, actions, n);
    if Late(s, pid, scan, over) {
      LateStep(env, s, a, pid, scan, over);
    } else if Moves(a, pid) {
      DispatchingIsEarly(env, s, pid, a.step);
      NoAnswer(s, states[n + 1], scan, over);
      if s.procs[pid].pc == DispatchClaim {
        ClaimNext(env, states, actions, i, n, pid, scan, over);
      } else if Records(a.step) {
        RecordNext(env, states, actions, i, n, pid, scan, Held(s.procs[pid].pc).value, over);
      } else {
        HoldingNext(env, states, actions, i, n, pid, scan, Held(s.procs[pid].pc).value, over);
      }
    } else if Acts(a, pid) {
      ArrivalsAreNew(s, a.pid, a.arrival);
    } else {
      Untouched(env, s, a, pid);
      CourseElsewhere(env, states, actions, i, n, pid, scan, over);
    }
  }

  lemma CourseElsewhere(env: Env, states: seq<System>, actions: seq<Action>, i: nat, n: nat, pid: Id, scan: Id,
                        over: bool)
    requires n + 1 < |states| && OnCourse(env, states, actions, i, n, pid, scan, over)
    requires !Late(states[n], pid, scan, over)
    requires pid in states[n + 1].procs && states[n + 1].procs[pid] == states[n].procs[pid]
    ensures OnCourse(env, states, actions, i, n + 1, pid, scan, over)
  {
    hide ClaimedAt, Held, Late;
    var pc := states[n].procs[pid].pc;
    if pc != DispatchClaim {
      var c: nat :| i < c < n && ClaimedAt(env, states, actions, c, pid, scan, Held(pc).value);
    }
  }

  // ------------------------------------------------------------------------- arrival

  lemma ArrivalCourse(env: Env, s: System, pid: Id, scan: Id, over: bool)
    requires Inv(env, s) && pid !in s.procs && scan in s.db.jobs
    ensures var t := BeginPollStep(s, pid, scan);
      if s.db.jobs[scan].status == QUEUED
      then
        && pid in t.procs && t.procs[pid].scan == scan && t.procs[pid].pc == DispatchClaim
        && t.responses == s.responses
      else StaysLate(s, t, pid, scan, over)
  {
    hide Inv, Move, Answer, Late, TellsLate, Mine, LinkOk, HistoryOk, StoredOk, RowChecks, Settling;
    RowIsOk(env, s, scan);
    var u, job := Arriving(s, pid, scan), s.db.jobs[scan];
    ActiveHasScanner(job);
    if job.status == QUEUED {
      MoveIsMine(u, pid, DispatchClaim);
      MoveKeepsScan(u, pid, DispatchClaim);
    } else {
      if IsActive(job) {
        LateMoves(u, pid, scan, PollFetch(job.scannerId.value, job), over);
      } else {
        LateAnswers(u, pid, scan, job, over);
      }
      TellsTheSame(s, u, BeginPollStep(s, pid, scan), scan, over);
    }
  }

  lemma MoveKeepsScan(s: System, pid: Id, pc: Pc)
    requires pid in s.procs
    ensures pid in Move(s, pid, pc).procs && Move(s, pid, pc).procs[pid].scan == s.procs[pid].scan
  {}

  lemma TellsTheSame(s: System, u: System, t: System, scan: Id, over: bool)
    requires u.responses == s.responses && TellsLate(u, t, scan, over)
    ensures TellsLate(s, t, scan, over)
  {}

  lemma ActiveHasScanner(j: Job)
    requires RowChecks(j) && (j.startedAt.Some? <==> j.scannerId.Some?)
    ensures IsActive(j) && j.status != QUEUED ==> j.scannerId.Some?
    ensures j.status == QUEUED ==> j.scannerId.None?
  {}

  lemma ArrivalAt(env: Env, states: seq<System>, actions: seq<Action>, i: nat, pid: Id, scan: Id, over: bool)
    requires Execution(env, states, actions) && Init(env, states[0]) && i < |actions|
    requires actions[i] == Arrive(pid, Poll(scan))
    ensures scan in states[i].db.jobs
    ensures if states[i].db.jobs[scan].status == QUEUED
            then
              && pid in states[i + 1].procs && states[i + 1].procs[pid].scan == scan
              && states[i + 1].procs[pid].pc == DispatchClaim && states[i + 1].responses == states[i].responses
            else StaysLate(states[i], states[i + 1], pid, scan, over)
  {
    hide Inv, Init, BeginPollStep, StaysLate, CanProceed, ProceedStep, CanHappen, HappenStep;
    assert Enabled(env, states[i], actions[i]) && states[i + 1] == Apply(env, states[i], actions[i]);
    ReachableOk(env, states, actions, i);
    ArrivalCourse(env, states[i], pid, scan, over);
  }

  // ------------------------------------------------------------------ whole lives

  lemma {:induction false} CourseAt(env: Env, states: seq<System>, actions: seq<Action>, i: nat, k: nat, n: nat,
                                    pid: Id, scan: Id, over: bool)
    requires Execution(env, states, actions) && Init(env, states[0]) && PollLife(states, actions, i, n, pid, scan)
    requires Untroubled(states, actions, i, n, pid) && InTime(env, states, actions, i, n, pid)
    requires over ==> FetchesOver(states, actions, i, n, pid)
    requires i < k <= n
    ensures OnCourse(env, states, actions, i, k, pid, scan, over)
    decreases k
  {
    hide Inv, Init, Enabled, Apply, OnCourse, StepUntroubled, FetchOver, Held;
    if k == i + 1 {
      ArrivalAt(env, states, actions, i, pid, scan, over);
      StartsOnCourse(env, states, actions, i, pid, scan, over);
    } else {
      CourseAt(env, states, actions, i, k - 1, n, pid, scan, over);
      InTimeSoFar(env, states, actions, i, k - 1, n, pid);
      CourseNext(env, states, actions, i, k - 1, pid, scan, over);
    }
  }

  lemma StartsOnCourse(env: Env, states: seq<System>, actions: seq<Action>, i: nat, pid: Id, scan: Id, over: bool)
    requires i + 1 < |states| && pid in states[i + 1].procs
    requires Late(states[i + 1], pid, scan, over)
      || (states[i + 1].procs[pid].scan == scan && states[i + 1].procs[pid].pc == DispatchClaim)
    ensures OnCourse(env, states, actions, i, i + 1, pid, scan, over)
  {
    hide Late;
  }

  lemma InTimeSoFar(env: Env, states: seq<System>, actions: seq<Action>, i: nat, k: nat, n: nat, pid: Id)
    requires InTime(env, states, actions, i, n, pid) && k <= n
    ensures InTime(env, states, actions, i, k, pid)
  {}

  // A poll that arrives after the row has left the queue needs no such care: it
  // never dispatches.
  lemma {:induction false} LateAt(env: Env, states: seq<System>, actions: seq<Action>, i: nat, k: nat, n: nat,
                                  pid: Id, scan: Id, over: bool)
    requires Execution(env, states, actions) && Init(env, states[0]) && PollLife(states, actions, i, n, pid, scan)
    requires PastQueue(states[i], scan) && (over ==> FetchesOver(states, actions, i, n, pid))
    requires i < k <= n
    ensures Late(states[k], pid, scan, over)
    decreases k
  {
    hide Inv, Init, Enabled, Apply, Late, FetchOver;
    if k == i + 1 {
      ArrivalAt(env, states, actions, i, pid, scan, over);
    } else {
      LateAt(env, states, actions, i, k - 1, n, pid, scan, over);
      assert Enabled(env, states[k - 1], actions[k - 1]) && states[k] == Apply(env, states[k - 1], actions[k - 1]);
      ReachableOk(env, states, actions, k - 1);
      LateStep(env, states[k - 1], actions[k - 1], pid, scan, over);
    }
  }

  // What a poll answers, when it was untroubled or found the row past the queue.
  lemma AnswersLate(env: Env, states: seq<System>, actions: seq<Action>, i: nat, n: nat, pid: Id, scan: Id,
                    r: Response, over: bool)
    requires Execution(env, states, actions) && Init(env, states[0])
    requires PollLife(states, actions, i, n, pid, scan) && Answers(states, actions, n, pid, r)
    requires scan in states[i].db.jobs
    requires PastQueue(states[i], scan)
      || (Untroubled(states, actions, i, n, pid) && InTime(env, states, actions, i, n, pid))
    requires over ==> FetchesOver(states, actions, i, n, pid)
    ensures r.scan == scan && r.job.status != QUEUED && (over ==> IsTerminal(r.job))
  {
    hide Inv, Init, Enabled, Apply, Untroubled, InTime, Late, OnCourse, FetchOver;
    if n == i {
      ArrivalAt(env, states, actions, i, pid, scan, over);
      assert |states[i + 1].responses| == |states[i].responses| + 1;
    } else if PastQueue(states[i], scan) {
      LateAt(env, states, actions, i, n, n, pid, scan, over);
      assert Enabled(env, states[n], actions[n]) && states[n + 1] == Apply(env, states[n], actions[n]);
      ReachableOk(env, states, actions, n);
      LateStep(env, states[n], actions[n], pid, scan, over);
    } else {
      CourseAt(env, states, actions, i, n, n, pid, scan, over);
      LastCourse(env, states, actions, i, n, pid, scan, over);
    }
  }

  lemma LastCourse(env: Env, states: seq<System>, actions: seq<Action>, i: nat, n: nat, pid: Id, scan: Id, over: bool)
    requires Execution(env, states, actions) && Init(env, states[0]) && i < n < |actions| && Acts(actions[n], pid)
    requires Untroubled(states, actions, i, n, pid) && InTime(env, states, actions, i, n, pid)
    requires over ==> FetchesOver(states, actions, i, n, pid)
    requires OnCourse(env, states, actions, i, n, pid, scan, over)
    ensures TellsLate(states[n], states[n + 1], scan, over)
  {
    hide Inv, Init, Enabled, Apply, OnCourse, StepUntroubled, FetchOver, InTime, TellsLate;
    CourseNext(env, states, actions, i, n, pid, scan, over);
  }

  // ------------------------------------------------------- a scanner job that is over

  // Nothing puts a scanner job back to work.
  lemma WorkEndsOnce(env: Env, s: System, a: Action, g: Id)
    requires Enabled(env, s, a) && g in s.engine.origin && g !in s.engine.workers
    ensures g !in Apply(env, s, a).engine.workers
  {
    hide CanArrive, ArriveStep, CanProceed, ProceedStep, CanHappen, HappenStep;
    match a
    case Arrive(pid, arrival) => ArrivalIsMine(s, pid, arrival);
    case Proceed(pid, step) => StepIsMine(env, s, pid, step);
    case Happen(event) => EventEndsWork(s, event, g);
  }

  lemma EventEndsWork(s: System, event: Event, g: Id)
    requires CanHappen(s, event) && g in s.engine.origin && g !in s.engine.workers
    ensures g !in HappenStep(s, event).engine.workers
  {
    hide InsertBlocked, HandleStep, Store.MarkRunning, Store.MarkCompleted, Store.MarkFailed;
    match event
    case HandleCreate(token, verdict, scannerId) => HandlingEndsWork(s, token, verdict, scannerId, g);
    case _ =>
  }

  lemma HandlingEndsWork(s: System, token: Id, verdict: Option<FailureCode>, scannerId: Id, g: Id)
    requires token in s.sent && scannerId !in s.engine.origin && g in s.engine.origin && g !in s.engine.workers
    ensures g !in HandleStep(s, token, verdict, scannerId).engine.workers
  {
    hide Store.Admit;
  }

  lemma {:induction false} WorkStaysOver(env: Env, states: seq<System>, actions: seq<Action>, m: nat, n: nat, g: Id)
    requires Execution(env, states, actions) && Init(env, states[0]) && m <= n <= |actions|
    requires g in states[m].engine.origin && g !in states[m].engine.workers
    ensures g !in states[n].engine.workers
    decreases n
  {
    hide Inv, Init, Enabled, Apply, RowsEvolve;
    if n > m {
      WorkStaysOver(env, states, actions, m, n - 1, g);
      ReachableEvolves(env, states, actions, m, n - 1);
      assert Enabled(env, states[n - 1], actions[n - 1]) && states[n] == Apply(env, states[n - 1], actions[n - 1]);
      WorkEndsOnce(env, states[n - 1], actions[n - 1], g);
    }
  }

  lemma OverIsNoWorker(env: Env, s: System, scan: Id)
    requires Inv(env, s) && scan in s.db.jobs && Rank(s, scan) == 1
    ensures var j := s.db.jobs[scan];
      && PastQueue(s, scan) && j.scannerId.Some?
      && j.scannerId.value in s.engine.origin && j.scannerId.value !in s.engine.workers
  {
    hide Inv, HistoryOk, StoredOk, RowChecks;
    RowIsOk(env, s, scan);
    ActiveHasScanner(s.db.jobs[scan]);
  }

  // A poll of a row whose scanner job is over when it arrives only ever finds it
  // over.
  lemma OverAtArrival(env: Env, states: seq<System>, actions: seq<Action>, i: nat, n: nat, pid: Id, scan: Id)
    requires Execution(env, states, actions) && Init(env, states[0]) && PollLife(states, actions, i, n, pid, scan)
    requires scan in states[i].db.jobs && Rank(states[i], scan) == 1
    ensures PastQueue(states[i], scan) && FetchesOver(states, actions, i, n, pid)
  {
    hide Inv, Init, Enabled, Apply, Rank, PastQueue, FetchOver;
    ReachableOk(env, states, actions, i);
    OverIsNoWorker(env, states[i], scan);
    forall m | i < m <= n && Moves(actions[m], pid) ensures FetchOver(states[m], pid, actions[m].step) {
      FetchesTheSameJob(env, states, actions, i, m, n, pid, scan);
    }
  }

  lemma FetchesTheSameJob(env: Env, states: seq<System>, actions: seq<Action>, i: nat, m: nat, n: nat, pid: Id,
                          scan: Id)
    requires Execution(env, states, actions) && Init(env, states[0]) && PollLife(states, actions, i, n, pid, scan)
    requires i < m <= n && Moves(actions[m], pid) && PastQueue(states[i], scan)
    requires scan in states[i].db.jobs && states[i].db.jobs[scan].scannerId.Some?
    requires states[i].db.jobs[scan].scannerId.value in states[i].engine.origin
    requires states[i].db.jobs[scan].scannerId.value !in states[i].engine.workers
    ensures FetchOver(states[m], pid, actions[m].step)
  {
    hide Inv, Init, Enabled, Apply, RecordsGrow, FetchesOver, Settling;
    LateAt(env, states, actions, i, m, n, pid, scan, false);
    ReachableOk(env, states, actions, m);
    ReachableEvolves(env, states, actions, i, m);
    WorkStaysOver(env, states, actions, i, m, states[i].db.jobs[scan].scannerId.value);
    if states[m].procs[pid].pc.PollFetch? {
      FetchesRecorded(env, states[m], pid);
      assert JobEvolves(states[i].db.jobs[scan], states[m].db.jobs[scan]);
    }
  }

  lemma FetchesRecorded(env: Env, s: System, pid: Id)
    requires Inv(env, s) && pid in s.procs && s.procs[pid].pc.PollFetch?
    ensures s.procs[pid].scan in s.db.jobs
    ensures s.db.jobs[s.procs[pid].scan].scannerId == Some(s.procs[pid].pc.scannerId)
  {
    hide Inv, Seen;
    PcOf(env, s, pid);
  }

  // --------------------------------------------------------------- main results

  // Whatever else happens while it runs, and however much time passes: a poll
  // that is answered, has met no trouble on its way and has recorded before its
  // lease expired tells its caller that the row has left the queue; it tells the
  // row's last word unless the scanner's job was at work when it asked; and it
  // has brought the row closer to its end if the row was queued or its scanner
  // job over. The row never moves away from its end.
  lemma EveryPollLowersRank(env: Env, states: seq<System>, actions: seq<Action>, i: nat, n: nat, pid: Id, scan: Id,
                            r: Response)
    requires Execution(env, states, actions) && Init(env, states[0])
    requires PollLife(states, actions, i, n, pid, scan) && Answers(states, actions, n, pid, r)
    requires Untroubled(states, actions, i, n, pid) && InTime(env, states, actions, i, n, pid)
    ensures scan in states[i].db.jobs && scan in states[n + 1].db.jobs
    ensures r.scan == scan && r.job.status != QUEUED && JobEvolves(r.job, states[n + 1].db.jobs[scan])
    ensures FetchesOver(states, actions, i, n, pid) ==> r.job.status in {COMPLETED, FAILED, BLOCKED}
    ensures var a, b, workers := states[i].db.jobs[scan], states[n + 1].db.jobs[scan], states[i].engine.workers;
      && b.status != QUEUED
      && (a.status == RUNNING && a.scannerId.Some? && a.scannerId.value !in workers ==>
            b.status in {COMPLETED, FAILED})
      && (a.status in {COMPLETED, FAILED, BLOCKED} ==> b == a)
    ensures Rank(states[n + 1], scan) <= Rank(states[i], scan)
    ensures Rank(states[i], scan) in {1, 3} ==> Rank(states[n + 1], scan) < Rank(states[i], scan)
  {
    hide Inv, Init, Enabled, Apply, Untroubled, InTime, FetchesOver, Rank;
    ArrivalAt(env, states, actions, i, pid, scan, false);
    ReachableOk(env, states, actions, n + 1);
    ReachableEvolves(env, states, actions, i, n + 1);
    AnswersLate(env, states, actions, i, n, pid, scan, r, false);
    AnswerIsEarlierRow(env, states[n + 1], |states[n].responses|);
    if FetchesOver(states, actions, i, n, pid) {
      AnswersLate(env, states, actions, i, n, pid, scan, r, true);
    }
    if Rank(states[i], scan) == 1 {
      OverAtArrival(env, states, actions, i, n, pid, scan);
      AnswersLate(env, states, actions, i, n, pid, scan, r, true);
    }
    RankFalls(states[i], states[n + 1], scan, r.job);
    RowMovesOn(states[i], states[n + 1], scan, r.job);
  }

  lemma RowMovesOn(s: System, t: System, scan: Id, told: Job)
    requires Evolves(s, t) && scan in s.db.jobs && scan in t.db.jobs
    requires told.status != QUEUED && JobEvolves(told, t.db.jobs[scan])
    requires Rank(s, scan) == 1 ==> IsTerminal(told)
    ensures var a, b := s.db.jobs[scan], t.db.jobs[scan];
      && b.status != QUEUED
      && (a.status == RUNNING && a.scannerId.Some? && a.scannerId.value !in s.engine.workers ==>
            b.status in {COMPLETED, FAILED})
      && (a.status in {COMPLETED, FAILED, BLOCKED} ==> b == a)
  {
    hide RecordsGrow;
    assert JobEvolves(s.db.jobs[scan], t.db.jobs[scan]);
  }

  lemma RankFalls(s: System, t: System, scan: Id, told: Job)
    requires Evolves(s, t) && scan in s.db.jobs && scan in t.db.jobs
    requires told.status != QUEUED && JobEvolves(told, t.db.jobs[scan])
    requires Rank(s, scan) == 1 ==> IsTerminal(told)
    ensures Rank(t, scan) <= Rank(s, scan)
    ensures Rank(s, scan) in {1, 3} ==> Rank(t, scan) < Rank(s, scan)
  {
    hide RecordsGrow;
    assert JobEvolves(s.db.jobs[scan], t.db.jobs[scan]);
  }

  // From an empty database, in every execution: a poll that is answered after no
  // trouble and in time, and any later poll that is answered and never found the
  // scanner's job at work. Whatever else ran during them and between them, the
  // second caller is told the row's last word, and the row keeps it.
  lemma EveryTwoPollsSettle(env: Env, states: seq<System>, actions: seq<Action>, i: nat, n: nat, pid: Id, r: Response,
                            j: nat, m: nat, other: Id, later: Response, scan: Id)
    requires Execution(env, states, actions) && Init(env, states[0])
    requires PollLife(states, actions, i, n, pid, scan) && Answers(states, actions, n, pid, r)
    requires Untroubled(states, actions, i, n, pid) && InTime(env, states, actions, i, n, pid)
    requires n < j && PollLife(states, actions, j, m, other, scan) && Answers(states, actions, m, other, later)
    requires FetchesOver(states, actions, j, m, other)
    ensures later.scan == scan && later.job.status in {COMPLETED, FAILED, BLOCKED}
    ensures scan in states[m + 1].db.jobs && states[m + 1].db.jobs[scan] == later.job
  {
    hide Inv, Init, Enabled, Apply, Untroubled, InTime, FetchesOver, Answers, Evolves;
    EveryPollLowersRank(env, states, actions, i, n, pid, scan, r);
    ReachableEvolves(env, states, actions, n + 1, j);
    ToldIsPast(states[n + 1], scan, r.job);
    QueueStaysPast(states[n + 1], states[j], scan);
    AnswersLate(env, states, actions, j, m, other, scan, later, true);
    AnsweredRow(env, states, actions, m, other, later);
  }

  lemma ToldIsPast(s: System, scan: Id, told: Job)
    requires scan in s.db.jobs && told.status != QUEUED && JobEvolves(told, s.db.jobs[scan])
    ensures PastQueue(s, scan)
  {}

  lemma AnsweredRow(env: Env, states: seq<System>, actions: seq<Action>, n: nat, pid: Id, r: Response)
    requires Execution(env, states, actions) && Init(env, states[0]) && Answers(states, actions, n, pid, r)
    ensures r.scan in states[n + 1].db.jobs && JobEvolves(r.job, states[n + 1].db.jobs[r.scan])
  {
    hide Inv, Init, Enabled, Apply, JobEvolves;
    ReachableOk(env, states, actions, n + 1);
    AnswerIsEarlierRow(env, states[n + 1], |states[n].responses|);
  }
}
