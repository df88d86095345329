// Progress is possible: from whatever state the system is in, two polls that
// meet no fault can settle an active scan whose lease is free, with the scanner
// finishing its job between them. ProtocolEveryPoll says what every poll does,
// whatever runs around it.
module ProtocolProgress {
  import opened Collections
  import opened ScanTasks
  import opened ScanRecords
  import opened DispatchProtocol
  import opened ProtocolInvariant
  import opened ProtocolSteps
  import opened ProtocolQuiet
  import opened ProtocolSafety
  import opened ProtocolRuns
  import opened ProtocolPoll
  import Store = JobStore
  import Go = GoEngine

  // What one poll meets on its way: fresh ids, the policy's decision, what the
  // scanner's validation says, and the id the scanner would give a new job.
  datatype Luck = Luck(pid: Id, token: Id, decision: Decision, verdict: Option<FailureCode>, scannerId: Id)

  // Fresh ids, room in the scanner, and a decision the policy could make now.
  ghost predicate Fair(env: Env, s: System, scan: Id, luck: Luck)
    requires scan in s.db.jobs
  {
    && luck.pid !in s.procs && luck.token !in s.tokens && luck.scannerId !in s.engine.origin
    && |s.engine.workers.Keys| < s.engine.store.maxActive
    && (luck.decision.Grant? ==>
          && luck.decision.rule in s.db.rules && ValidPins(luck.decision.pins)
          && RuleAdmits(env, s.db.rules[luck.decision.rule], s.db.jobs[scan].owner, s.db.jobs[scan].request, s.clock))
  }

  // No giving up, no lost or unusable answer; and the lease token and the
  // policy's decision are those of the poll.
  predicate FaultFree(step: Step, luck: Luck) {
    && step != GiveUp && step != Misread && step != Stop
    && (step.Fetch? ==> step.outcome == Reached)
    && (step.Claim? ==> step.token == luck.token)
    && (step.Authorize? ==> step.decision == luck.decision)
  }

  // The poll's own steps, none of them a fault, and the scanner's handling of
  // the one message the poll sends.
  predicate OfPoll(a: Action, scan: Id, luck: Luck) {
    match a
    case Arrive(pid, arrival) => pid == luck.pid && arrival == Poll(scan)
    case Proceed(pid, step) => pid == luck.pid && FaultFree(step, luck)
    case Happen(event) => event == HandleCreate(luck.token, luck.verdict, luck.scannerId)
  }

  ghost predicate AllOfPoll(actions: seq<Action>, scan: Id, luck: Luck) {
    forall i :: 0 <= i < |actions| ==> OfPoll(actions[i], scan, luck)
  }

  // How far a row is from being settled.
  ghost function Rank(s: System, scan: Id): nat
    requires scan in s.db.jobs
  {
    var j := s.db.jobs[scan];
    if IsTerminal(j) then 0
    else if j.status == QUEUED then 3
    else if j.scannerId.Some? && j.scannerId.value in s.engine.workers then 2
    else 1
  }

  // ------------------------------------------------------------- growing a run

  ghost predicate PollRun(env: Env, s: System, actions: seq<Action>, t: System, scan: Id, luck: Luck) {
    Leads(env, s, actions, t) && AllOfPoll(actions, scan, luck)
  }

  lemma Extend(env: Env, s: System, actions: seq<Action>, t: System, a: Action, u: System, scan: Id, luck: Luck)
    returns (longer: seq<Action>)
    requires PollRun(env, s, actions, t, scan, luck) && Inv(env, t) && Took(env, t, a, u) && OfPoll(a, scan, luck)
    ensures PollRun(env, s, longer, u, scan, luck) && Inv(env, u) && !u.refused
  {
    hide Inv, Enabled, Apply, OfPoll, Leads;
    TookKeeps(env, t, a, u);
    LeadsOn(env, s, actions, t, a, u);
    longer := actions + [a];
  }

  lemma ReadTail(env: Env, s: System, before: seq<Action>, m: System, scan: Id, luck: Luck)
    returns (actions: seq<Action>, t: System)
    requires scan in m.db.jobs && PollRun(env, s, before, m, scan, luck) && Inv(env, m)
    requires Serving(m, luck.pid, scan, PollResults(m.db.jobs[scan]))
    ensures PollRun(env, s, actions, t, scan, luck) && Inv(env, t) && Answered(m, t, luck.pid, scan)
    ensures t.db == m.db && t.engine == m.engine && t.clock == m.clock
  {
    hide Inv, PollRun, Took, Serving;
    t := ReadRuns(env, m, luck.pid, scan);
    actions := Extend(env, s, before, m, Proceed(luck.pid, ReadResults), t, scan, luck);
  }

  // From the reload of the row to the answer.
  lemma AnswerRuns(env: Env, s: System, before: seq<Action>, m: System, scan: Id, luck: Luck, failed: bool)
    returns (actions: seq<Action>, t: System)
    requires PollRun(env, s, before, m, scan, luck) && Inv(env, m) && Serving(m, luck.pid, scan, PollRefresh(failed))
    ensures PollRun(env, s, actions, t, scan, luck) && Inv(env, t) && Answered(m, t, luck.pid, scan)
    ensures t.db == m.db && t.engine == m.engine && t.clock == m.clock
  {
    hide Inv, PollRun, Took;
    assert scan in m.db.jobs;
    hide Serving;
    if m.db.jobs[scan].status == COMPLETED && !failed {
      var u := RefreshReads(env, m, luck.pid, scan);
      actions := Extend(env, s, before, m, Proceed(luck.pid, Refresh), u, scan, luck);
      actions, t := ReadTail(env, s, actions, u, scan, luck);
    } else {
      t := RefreshAnswers(env, m, luck.pid, scan, failed);
      actions := Extend(env, s, before, m, Proceed(luck.pid, Refresh), t, scan, luck);
    }
  }

  lemma KnownTail(env: Env, s: System, before: seq<Action>, m: System, scan: Id, luck: Luck, scannerId: Id,
                  answer: Store.ScanJob)
    returns (actions: seq<Action>, t: System)
    requires PollRun(env, s, before, m, scan, luck) && Inv(env, m)
    requires Serving(m, luck.pid, scan, PollSynchronize(scannerId, answer))
    ensures PollRun(env, s, actions, t, scan, luck) && Inv(env, t) && Answered(m, t, luck.pid, scan)
    ensures t.clock == m.clock && t.engine == m.engine
    ensures IsTerminal(t.db.jobs[scan]) || (t.db == m.db && Store.Active(answer))
  {
    hide Inv, PollRun, Took, IsTerminal, Store.Active;
    var u := SynchronizeRuns(env, m, luck.pid, scan, scannerId, answer);
    actions := Extend(env, s, before, m, Proceed(luck.pid, Synchronize(m.clock)), u, scan, luck);
    actions, t := AnswerRuns(env, s, actions, u, scan, luck, false);
  }

  lemma LostTail(env: Env, s: System, before: seq<Action>, m: System, scan: Id, luck: Luck, code: FailureCode)
    returns (actions: seq<Action>, t: System)
    requires PollRun(env, s, before, m, scan, luck) && Inv(env, m) && Serving(m, luck.pid, scan, PollFail(code))
    ensures PollRun(env, s, actions, t, scan, luck) && Inv(env, t) && Answered(m, t, luck.pid, scan)
    ensures t.clock == m.clock && t.engine == m.engine && IsTerminal(t.db.jobs[scan])
  {
    hide Inv, PollRun, Took, IsTerminal;
    var u := LostRuns(env, m, luck.pid, scan, code);
    actions := Extend(env, s, before, m, Proceed(luck.pid, Synchronize(m.clock)), u, scan, luck);
    actions, t := AnswerRuns(env, s, actions, u, scan, luck, true);
  }

  // From the fetch to the answer: the row is settled, or the scanner's job is
  // still active and nothing has changed.
  lemma TailRuns(env: Env, s: System, before: seq<Action>, m: System, scan: Id, luck: Luck, scannerId: Id, job: Job)
    returns (actions: seq<Action>, t: System)
    requires PollRun(env, s, before, m, scan, luck) && Inv(env, m)
    requires Serving(m, luck.pid, scan, PollFetch(scannerId, job))
    ensures PollRun(env, s, actions, t, scan, luck) && Inv(env, t) && Answered(m, t, luck.pid, scan)
    ensures t.clock == m.clock && t.engine == m.engine
    ensures IsTerminal(t.db.jobs[scan]) ||
      (t.db == m.db && scannerId in m.engine.store.jobs && Store.Active(m.engine.store.jobs[scannerId]))
  {
    hide Inv, PollRun, Took, LinksOk, JobsOk, Go.EngineOk, ServingOk, IsTerminal, Store.Active, RowOk;
    LinksOf(env, m);
    PcOf(env, m, luck.pid);
    var u := FetchRuns(env, m, luck.pid, scan, scannerId, job);
    actions := Extend(env, s, before, m, Proceed(luck.pid, Fetch(Reached)), u, scan, luck);
    if scannerId in m.engine.store.jobs {
      actions, t := KnownTail(env, s, actions, u, scan, luck, scannerId, m.engine.store.jobs[scannerId]);
    } else {
      actions, t := LostTail(env, s, actions, u, scan, luck, ScanNotFound);
    }
  }

  // ------------------------------------------------------------- the dispatch

  ghost predicate FairChoice(env: Env, s: System, scan: Id, luck: Luck) {
    && scan in s.db.jobs
    && (luck.decision.Grant? ==>
          && luck.decision.rule in s.db.rules && ValidPins(luck.decision.pins)
          && RuleAdmits(env, s.db.rules[luck.decision.rule], s.db.jobs[scan].owner, s.db.jobs[scan].request, s.clock))
  }

  ghost predicate Room(s: System, luck: Luck) {
    luck.scannerId !in s.engine.origin && |s.engine.workers.Keys| < s.engine.store.maxActive
  }

  lemma FailTail(env: Env, s: System, before: seq<Action>, m: System, scan: Id, luck: Luck, code: FailureCode,
                 blocked: bool)
    returns (actions: seq<Action>, t: System)
    requires PollRun(env, s, before, m, scan, luck) && Inv(env, m) && Leased(m, scan, luck.token)
    requires Serving(m, luck.pid, scan, DispatchFail(luck.token, code, blocked))
    ensures PollRun(env, s, actions, t, scan, luck) && Inv(env, t) && Serving(t, luck.pid, scan, DispatchReturned)
    ensures t.clock == m.clock && t.responses == m.responses
    ensures IsTerminal(t.db.jobs[scan]) && t.db.jobs[scan].status != COMPLETED
  {
    hide Inv, PollRun, Took, IsTerminal, Leased;
    t := FailRuns(env, m, luck.pid, scan, luck.token, code, blocked);
    actions := Extend(env, s, before, m, Proceed(luck.pid, RecordFailure(m.clock)), t, scan, luck);
  }

  // The scanner answers and the answer is recorded.
  lemma AwaitTail(env: Env, s: System, before: seq<Action>, m: System, scan: Id, luck: Luck)
    returns (actions: seq<Action>, t: System)
    requires PollRun(env, s, before, m, scan, luck) && Inv(env, m) && Leased(m, scan, luck.token) && Room(m, luck)
    requires Serving(m, luck.pid, scan, DispatchAwait(luck.token))
    requires luck.token in m.sent && m.sent[luck.token].scan == scan
    ensures PollRun(env, s, actions, t, scan, luck) && Inv(env, t) && Serving(t, luck.pid, scan, DispatchReturned)
    ensures t.clock == m.clock && t.responses == m.responses
    ensures Dispatched(t.db.jobs[scan])
  {
    hide Inv, PollRun, Took, LinksOk, JobsOk, Go.EngineOk, ServingOk, IsTerminal, HoldsLease;
    LinksOf(env, m);
    var u := HandleRuns(env, m, luck.pid, scan, luck.token, luck.verdict, luck.scannerId);
    actions := Extend(env, s, before, m, Happen(HandleCreate(luck.token, luck.verdict, luck.scannerId)), u, scan, luck);
    actions, t := ReplyTail(env, s, actions, u, scan, luck);
  }

  // A row that needs no further dispatch.
  predicate Dispatched(j: Job) {
    (j.status == RUNNING && j.scannerId.Some?) || (IsTerminal(j) && j.status != COMPLETED)
  }

  lemma ReplyTail(env: Env, s: System, before: seq<Action>, m: System, scan: Id, luck: Luck)
    returns (actions: seq<Action>, t: System)
    requires PollRun(env, s, before, m, scan, luck) && Inv(env, m) && Leased(m, scan, luck.token)
    requires Serving(m, luck.pid, scan, DispatchAwait(luck.token))
    requires luck.token in m.replies && (m.replies[luck.token].Accepted? || m.replies[luck.token].BadRequest?)
    ensures PollRun(env, s, actions, t, scan, luck) && Inv(env, t) && Serving(t, luck.pid, scan, DispatchReturned)
    ensures t.clock == m.clock && t.responses == m.responses
    ensures Dispatched(t.db.jobs[scan])
  {
    hide Inv, PollRun, Took, LinksOk, JobsOk, Go.EngineOk, ServingOk, HoldsLease;
    LinksOf(env, m);
    PcOf(env, m, luck.pid);
    var u := ReceiveRuns(env, m, luck.pid, scan, luck.token);
    actions := Extend(env, s, before, m, Proceed(luck.pid, ReceiveCreate), u, scan, luck);
    var reply := m.replies[luck.token];
    if reply.Accepted? {
      t := MarkRuns(env, u, luck.pid, scan, luck.token, reply.scannerId);
      actions := Extend(env, s, actions, u, Proceed(luck.pid, RecordDispatch(u.clock)), t, scan, luck);
    } else {
      actions, t := FailTail(env, s, actions, u, scan, luck, reply.code, reply.code == BlockedTarget);
    }
  }

  // The policy's grant is attached and sent.
  lemma GrantTail(env: Env, s: System, before: seq<Action>, m: System, scan: Id, luck: Luck)
    returns (actions: seq<Action>, t: System)
    requires PollRun(env, s, before, m, scan, luck) && Inv(env, m) && Leased(m, scan, luck.token) && Room(m, luck)
    requires luck.decision.Grant? && FairChoice(env, m, scan, luck)
    requires Serving(m, luck.pid, scan, DispatchAttach(luck.token, luck.decision.rule, luck.decision.pins))
    ensures PollRun(env, s, actions, t, scan, luck) && Inv(env, t) && Serving(t, luck.pid, scan, DispatchReturned)
    ensures t.clock == m.clock && t.responses == m.responses
    ensures Dispatched(t.db.jobs[scan])
  {
    hide Inv, PollRun, Took, HoldsLease, ValidPins, Dispatched;
    var u, attachment := AttachRuns(env, m, luck.pid, scan, luck.token, luck.decision.rule, luck.decision.pins);
    actions := Extend(env, s, before, m, Proceed(luck.pid, Attach(m.clock)), u, scan, luck);
    var v := SendRuns(env, u, luck.pid, scan, attachment);
    actions := Extend(env, s, actions, u, Proceed(luck.pid, SendCreate), v, scan, luck);
    actions, t := AwaitTail(env, s, actions, v, scan, luck);
  }

  lemma DispatchRuns(env: Env, s: System, before: seq<Action>, m: System, scan: Id, luck: Luck)
    returns (actions: seq<Action>, t: System)
    requires PollRun(env, s, before, m, scan, luck) && Inv(env, m) && Room(m, luck) && luck.token !in m.tokens
    requires FairChoice(env, m, scan, luck) && Serving(m, luck.pid, scan, DispatchClaim)
    requires m.db.jobs[scan].status == QUEUED && m.db.jobs[scan].scannerId.None? && LeaseFree(m.db.jobs[scan], m.clock)
    ensures PollRun(env, s, actions, t, scan, luck) && Inv(env, t) && Serving(t, luck.pid, scan, DispatchReturned)
    ensures t.clock == m.clock && t.responses == m.responses
    ensures Dispatched(t.db.jobs[scan])
  {
    hide Inv, PollRun, Took, HoldsLease, ValidPins, RuleAdmits;
    var u := ClaimRuns(env, m, luck.pid, scan, luck.token);
    actions := Extend(env, s, before, m, Proceed(luck.pid, Claim(luck.token, m.clock)), u, scan, luck);
    var v := AuthorizeRuns(env, u, luck.pid, scan, luck.token, luck.decision);
    actions := Extend(env, s, actions, u, Proceed(luck.pid, Authorize(luck.decision, u.clock)), v, scan, luck);
    if luck.decision.Grant? {
      actions, t := GrantTail(env, s, actions, v, scan, luck);
    } else {
      actions, t := FailTail(env, s, actions, v, scan, luck, luck.decision.code, true);
    }
  }

  // ------------------------------------------------------------ the whole poll

  lemma ActiveRow(env: Env, s: System, scan: Id)
    requires Inv(env, s) && scan in s.db.jobs
    ensures s.db.jobs[scan].status == QUEUED ==> s.db.jobs[scan].scannerId.None?
    ensures s.db.jobs[scan].status == RUNNING ==> s.db.jobs[scan].scannerId.Some?
  {
    hide Inv, HistoryOk, StoredOk, LinkOk;
    RowIsOk(env, s, scan);
  }

  lemma RankAfter(env: Env, m: System, t: System, scan: Id, g: Id)
    requires Inv(env, t) && scan in m.db.jobs && scan in t.db.jobs && m.db.jobs[scan].scannerId == Some(g)
    requires t.engine == m.engine
    requires IsTerminal(t.db.jobs[scan]) ||
      (t.db == m.db && g in m.engine.store.jobs && Store.Active(m.engine.store.jobs[g]))
    ensures Rank(t, scan) == 0 || (Rank(t, scan) == Rank(m, scan) && Rank(t, scan) in {2, 3})
  {
    hide Inv;
    WorksOn(env, t, g);
  }

  lemma RunningPoll(env: Env, s: System, scan: Id, luck: Luck) returns (actions: seq<Action>, t: System)
    requires Inv(env, s) && scan in s.db.jobs && luck.pid !in s.procs && s.db.jobs[scan].status == RUNNING
    ensures PollRun(env, s, actions, t, scan, luck) && Inv(env, t) && Answered(s, t, luck.pid, scan)
    ensures t.clock == s.clock
    ensures Rank(t, scan) == 0 || (Rank(t, scan) == 2 && Rank(s, scan) == 2)
  {
    hide Inv, Took, Store.Active;
    ActiveRow(env, s, scan);
    var g := s.db.jobs[scan].scannerId.value;
    assert PollRun(env, s, [], s, scan, luck);
    hide PollRun, Serving;
    var m := ArriveFetches(env, s, luck.pid, scan);
    actions := Extend(env, s, [], s, Arrive(luck.pid, Poll(scan)), m, scan, luck);
    actions, t := TailRuns(env, s, actions, m, scan, luck, g, s.db.jobs[scan]);
    RankAfter(env, m, t, scan, g);
  }

  lemma SettledPoll(env: Env, s: System, scan: Id, luck: Luck) returns (actions: seq<Action>, t: System)
    requires Inv(env, s) && scan in s.db.jobs && luck.pid !in s.procs && IsTerminal(s.db.jobs[scan])
    ensures PollRun(env, s, actions, t, scan, luck) && Inv(env, t) && Answered(s, t, luck.pid, scan)
    ensures t.clock == s.clock && Rank(t, scan) == 0
  {
    hide Inv, Took;
    assert PollRun(env, s, [], s, scan, luck);
    hide PollRun, Serving;
    if s.db.jobs[scan].status == COMPLETED {
      var m := ArriveReads(env, s, luck.pid, scan);
      actions := Extend(env, s, [], s, Arrive(luck.pid, Poll(scan)), m, scan, luck);
      actions, t := ReadTail(env, s, actions, m, scan, luck);
    } else {
      t := ArriveAnswers(env, s, luck.pid, scan);
      actions := Extend(env, s, [], s, Arrive(luck.pid, Poll(scan)), t, scan, luck);
    }
  }

  lemma QueuedPoll(env: Env, s: System, scan: Id, luck: Luck) returns (actions: seq<Action>, t: System)
    requires Inv(env, s) && scan in s.db.jobs && Fair(env, s, scan, luck)
    requires s.db.jobs[scan].status == QUEUED && LeaseFree(s.db.jobs[scan], s.clock)
    ensures PollRun(env, s, actions, t, scan, luck) && Inv(env, t) && Answered(s, t, luck.pid, scan)
    ensures t.clock == s.clock
    ensures Rank(t, scan) == 0 || Rank(t, scan) == 2
  {
    hide Inv, Took, Store.Active, RuleAdmits, ValidPins;
    ActiveRow(env, s, scan);
    assert PollRun(env, s, [], s, scan, luck);
    hide PollRun, Serving;
    var m := ArriveDispatches(env, s, luck.pid, scan);
    actions := Extend(env, s, [], s, Arrive(luck.pid, Poll(scan)), m, scan, luck);
    var u: System;
    actions, u := DispatchRuns(env, s, actions, m, scan, luck);
    actions, t := ReloadedTail(env, s, actions, u, scan, luck);
  }

  lemma ReloadedTail(env: Env, s: System, before: seq<Action>, m: System, scan: Id, luck: Luck)
    returns (actions: seq<Action>, t: System)
    requires PollRun(env, s, before, m, scan, luck) && Inv(env, m) && Serving(m, luck.pid, scan, DispatchReturned)
    requires scan in m.db.jobs && Dispatched(m.db.jobs[scan])
    ensures PollRun(env, s, actions, t, scan, luck) && Inv(env, t) && Answered(m, t, luck.pid, scan)
    ensures t.clock == m.clock
    ensures Rank(t, scan) == 0 || Rank(t, scan) == 2
  {
    hide Inv, Took, PollRun, Serving, Store.Active;
    var u := ReloadRuns(env, m, luck.pid, scan);
    actions := Extend(env, s, before, m, Proceed(luck.pid, Reload), u, scan, luck);
    if m.db.jobs[scan].scannerId.Some? {
      var g := m.db.jobs[scan].scannerId.value;
      actions, t := TailRuns(env, s, actions, u, scan, luck, g, m.db.jobs[scan]);
      RankAfter(env, u, t, scan, g);
    } else {
      t := u;
    }
  }

  // There is a fault-free run of a poll that answers with the row as it then
  // stands and leaves it settled, or waiting for a scanner job that is still at
  // work: closer than before if it was queued or its scanner job was over.
  lemma PollLowersRank(env: Env, s: System, scan: Id, luck: Luck) returns (actions: seq<Action>, t: System)
    requires Inv(env, s) && scan in s.db.jobs && luck.pid !in s.procs
    requires s.db.jobs[scan].status == QUEUED ==> Fair(env, s, scan, luck) && LeaseFree(s.db.jobs[scan], s.clock)
    ensures PollRun(env, s, actions, t, scan, luck) && Inv(env, t) && Answered(s, t, luck.pid, scan)
    ensures t.clock == s.clock
    ensures Rank(t, scan) in {0, 2} && Rank(t, scan) <= Rank(s, scan)
    ensures Rank(s, scan) in {1, 3} ==> Rank(t, scan) < Rank(s, scan)
  {
    hide Inv, PollRun, Fair, LeaseFree;
    if IsTerminal(s.db.jobs[scan]) {
      actions, t := SettledPoll(env, s, scan, luck);
    } else if s.db.jobs[scan].status == QUEUED {
      actions, t := QueuedPoll(env, s, scan, luck);
    } else {
      actions, t := RunningPoll(env, s, scan, luck);
    }
  }

  // -------------------------------------------------- the scanner gets there

  predicate OfScanner(a: Action, g: Id) {
    a.Happen? && (a.event == ScannerStart(g) || (a.event.ScannerFinish? && a.event.scannerId == g))
  }

  ghost predicate ScannerRun(env: Env, s: System, actions: seq<Action>, t: System, g: Id) {
    Leads(env, s, actions, t) && forall i :: 0 <= i < |actions| ==> OfScanner(actions[i], g)
  }

  lemma StartTakes(env: Env, s: System, g: Id) returns (t: System)
    requires g in s.engine.workers && !s.engine.workers[g].running
    ensures Took(env, s, Happen(ScannerStart(g)), t)
    ensures t == s.(engine := t.engine) && g in t.engine.workers && t.engine.workers[g].running
  {
    hide Store.MarkRunning, ProceedStep, CanProceed, ArriveStep, CanArrive;
    t := s.(engine := Go.Start(s.engine, g, s.clock));
  }

  lemma FinishTakes(env: Env, s: System, g: Id, outcome: Go.Outcome) returns (t: System)
    requires g in s.engine.workers && s.engine.workers[g].running
    requires Go.ScannerOutput(outcome, s.engine.workers[g].config)
    ensures Took(env, s, Happen(ScannerFinish(g, outcome)), t)
    ensures t == s.(engine := t.engine) && g !in t.engine.workers
  {
    hide Store.MarkCompleted, Store.MarkFailed, Go.ScannerOutput, ProceedStep, CanProceed, ArriveStep, CanArrive;
    t := s.(engine := Go.Finish(s.engine, g, outcome, s.clock));
  }

  lemma ScannerExtend(env: Env, s: System, actions: seq<Action>, t: System, a: Action, u: System, g: Id)
    returns (longer: seq<Action>)
    requires ScannerRun(env, s, actions, t, g) && Inv(env, t) && Took(env, t, a, u) && OfScanner(a, g)
    ensures ScannerRun(env, s, longer, u, g) && Inv(env, u)
  {
    hide Inv, Enabled, Apply, OfScanner, Leads;
    TookKeeps(env, t, a, u);
    LeadsOn(env, s, actions, t, a, u);
    longer := actions + [a];
  }

  lemma ScannerFinishes(env: Env, s: System, g: Id, outcomes: ScanConfig -> Go.Outcome)
    returns (actions: seq<Action>, t: System)
    requires Inv(env, s) && g in s.engine.workers
    requires forall config :: Go.ScannerOutput(outcomes(config), config)
    ensures ScannerRun(env, s, actions, t, g) && Inv(env, t)
    ensures t == s.(engine := t.engine) && g !in t.engine.workers
  {
    hide Inv, Took, Go.ScannerOutput;
    assert ScannerRun(env, s, [], s, g);
    hide ScannerRun;
    var m := s;
    actions := [];
    if !s.engine.workers[g].running {
      m := StartTakes(env, s, g);
      actions := ScannerExtend(env, s, [], s, Happen(ScannerStart(g)), m, g);
    }
    var outcome := outcomes(m.engine.workers[g].config);
    t := FinishTakes(env, m, g, outcome);
    actions := ScannerExtend(env, s, actions, m, Happen(ScannerFinish(g, outcome)), t, g);
  }

  // ---------------------------------------------------------------- the result

  // From any reachable state, for whatever the policy decides, the scanner's
  // validation says and the scan produces, there is a run of a fault-free poll,
  // the end of the scanner's job if it is at work, and a second fault-free poll
  // that leaves an active row with a free lease terminal and tells the second
  // caller so.
  lemma TwoPollsSettle(env: Env, states: seq<System>, history: seq<Action>, s: System, scan: Id, luck: Luck,
                       outcomes: ScanConfig -> Go.Outcome)
    returns (first: seq<Action>, t1: System, finish: seq<Action>, t2: System, second: seq<Action>, t3: System)
    requires Execution(env, states, history) && Init(env, states[0]) && s == states[|history|]
    requires scan in s.db.jobs && s.db.jobs[scan].status in {QUEUED, RUNNING} && luck.pid !in s.procs
    requires s.db.jobs[scan].status == QUEUED ==>
      && Fair(env, s, scan, luck)
      && (s.db.jobs[scan].leaseExpires.None? || s.db.jobs[scan].leaseExpires.value <= s.clock)
    requires forall config :: Go.ScannerOutput(outcomes(config), config)
    ensures PollRun(env, s, first, t1, scan, luck) && Answered(s, t1, luck.pid, scan)
    ensures if Rank(t1, scan) == 0 then finish == [] && t2 == t1
            else Rank(t1, scan) == 2 && ScannerRun(env, t1, finish, t2, t1.db.jobs[scan].scannerId.value)
    ensures PollRun(env, t2, second, t3, scan, luck) && Answered(t2, t3, luck.pid, scan)
    ensures t3.db.jobs[scan].status in {COMPLETED, FAILED, BLOCKED}
  {
    hide Inv, Init, Enabled, Apply, Evolves, PollRun, ScannerRun, Fair, Go.ScannerOutput;
    ReachableOk(env, states, history, |history|);
    first, t1 := PollLowersRank(env, s, scan, luck);
    if Rank(t1, scan) == 0 {
      finish, t2 := [], t1;
    } else {
      finish, t2 := ScannerFinishes(env, t1, t1.db.jobs[scan].scannerId.value, outcomes);
    }
    second, t3 := PollLowersRank(env, t2, scan, luck);
  }
}
