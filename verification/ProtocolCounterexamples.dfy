// What the code does not do, each shown by a concrete execution from an empty
// database: two things its documentation promises (a job that an ambiguous
// timeout left behind is never duplicated; a blocked job never reached the
// scanner) and two that a reader may take for granted (a completed answer has
// results; what is dialled is what the last dispatch pinned). The exact
// conditions are proved in ProtocolSafety, ProtocolFirstLease and
// ProtocolAnswers.
module ProtocolCounterexamples {
  import opened Collections
  import opened ScanTasks
  import opened ScanRecords
  import opened DispatchProtocol
  import opened ProtocolRuns
  import Store = JobStore
  import Go = GoEngine

  const ENV := Env(owner => 0, (rule, target) => true, 15, 1, 10, 1000)
  const OWNER: Subject := "owner"
  const REQUEST := ScanRequest("host", 80, 80)
  const CONFIG := ScanConfig(REQUEST, ["a"])
  const RULE := Rule(Hostname("host"), None, None, None, true)
  const DISABLED := RULE.(enabled := false)

  // One step of a run, found by computing it.
  ghost predicate Next(s: System, a: Action, t: System) {
    Enabled(ENV, s, a) && Apply(ENV, s, a) == t
  }

  // ------------------------------------------------------------------- the pieces

  const QUEUED_JOB := NewJob(OWNER, REQUEST, Some(5), 0)
  const LEASED_JOB := QUEUED_JOB.(leaseToken := Some(11), leaseExpires := Some(15))
  const RUNNING_JOB := QUEUED_JOB.(status := RUNNING, scannerId := Some(21), startedAt := Some(0))
  const COMPLETED_JOB := RUNNING_JOB.(status := COMPLETED, duration := Some(1), finishedAt := Some(0))
  const RELEASED_JOB := QUEUED_JOB.(leaseToken := Some(12), leaseExpires := Some(30), updatedAt := 15)
  const BLOCKED_JOB :=
    QUEUED_JOB.(status := BLOCKED, failure := Some(BlockedTarget), finishedAt := Some(15), updatedAt := 15)

  const REQUESTED := RequestedEvent(7, QUEUED_JOB)
  const STARTED := ServiceEvent(7, OWNER, ScanStarted, Success, Empty, Some(5))
  const COMPLETED_EVENT := ServiceEvent(7, OWNER, ScanCompleted, Success, Counts(1, 1), Some(5))
  const BLOCKED_EVENT := ServiceEvent(7, OWNER, ScanBlocked, Denied, Code(BlockedTarget), Some(5))

  const ATTACHMENT := Attachment(11, 7, 5, RULE, 0, ["a"])
  const REATTACHMENT := Attachment(12, 7, 5, RULE, 15, ["b"])
  const MESSAGE := Message(ATTACHMENT, 7, CONFIG)
  const REMESSAGE := Message(REATTACHMENT, 7, ScanConfig(REQUEST, ["b"]))

  const RESULT := ScanResult(REQUEST, [PortResult(Endpoint("a", 80), Open)], 1)
  const STORED: map<Id, map<Endpoint, PortState>> := map[7 := map[Endpoint("a", 80) := Open]]
  const ORIGIN := map[21 := Go.Origin(Some(7), CONFIG)]

  function Scanner(job: Store.ScanJob, workers: map<Id, Go.Worker>): Go.Engine {
    Go.Engine(Store.Store(map[21 := job], map[7 := 21], 10, 1000), workers, ORIGIN)
  }

  const SCANNER_JOB := Store.NewScanJob(21, REQUEST, 0)
  const SCANNER_DONE := SCANNER_JOB.(status := Store.Completed, result := Some(RESULT))
  const WAITING_SCANNER := Scanner(SCANNER_JOB, map[21 := Go.Worker(false, CONFIG)])
  const WORKING_SCANNER := Scanner(SCANNER_JOB.(status := Store.Running), map[21 := Go.Worker(true, CONFIG)])
  const DONE_SCANNER := Scanner(SCANNER_DONE, map[])
  const EMPTY_SCANNER := Go.Engine(Store.NewStore(10, 1000), map[], ORIGIN)

  function Rows(job: Job, audit: seq<AuditEvent>, rule: Rule): Database {
    Database(map[7 := job], map[], audit, map[5 := rule])
  }

  const QUEUED_ROWS := Rows(QUEUED_JOB, [REQUESTED], RULE)
  const LEASED_ROWS := Rows(LEASED_JOB, [REQUESTED], RULE)
  const RUNNING_ROWS := Rows(RUNNING_JOB, [REQUESTED, STARTED], RULE)
  const COMPLETED_ROWS := Rows(COMPLETED_JOB, [REQUESTED, STARTED, COMPLETED_EVENT], RULE).(results := STORED)
  const BLOCKED_ROWS := Rows(BLOCKED_JOB, [REQUESTED, BLOCKED_EVENT], DISABLED)

  function Serving(pc: Pc): Proc {
    Proc(7, OWNER, REQUEST, Some(5), false, 0, 0, pc)
  }

  function Polling(since: Time, pc: Pc): Proc {
    Proc(7, OWNER, REQUEST, None, true, 0, since, pc)
  }

  // ------------------------------------------------------------------- the states

  const NOTHING := System(
    0, Database(map[], map[], [], map[5 := RULE]), Go.NewEngine(10, 1000),
    map[], map[], map[], map[], {}, map[], map[], {}, map[], {}, [], false)

  // Admission: nothing but the request and its lock.
  function Admitting(pc: Pc, locks: map<int, Id>): System {
    NOTHING.(procs := map[1 := Serving(pc)], locks := locks, scans := {7})
  }

  const ADMITTED := Admitting(DispatchClaim, map[]).(db := QUEUED_ROWS)

  // The first dispatch, under its lease.
  function Dispatching(pc: Pc): System {
    ADMITTED.(db := LEASED_ROWS, procs := map[1 := Serving(pc)], tokens := map[11 := 7], claims := map[7 := [11]])
  }

  const ATTACHED := Dispatching(DispatchSend(ATTACHMENT)).(attachments := {ATTACHMENT})
  const SENT := Dispatching(DispatchAwait(11)).(attachments := {ATTACHMENT}, sent := map[11 := MESSAGE])

  // The scanner has accepted the scan under the first lease; no message is left.
  function Accepted1(clock: Time, db: Database, engine: Go.Engine, procs: map<Id, Proc>): System {
    System(clock, db, engine, procs, map[], map[], map[11 := Accepted(21, REQUEST)], {7},
           map[11 := 7], map[7 := [11]], {ATTACHMENT}, map[21 := ATTACHMENT], {}, [], false)
  }

  const ACCEPTED := Accepted1(0, LEASED_ROWS, WAITING_SCANNER, map[1 := Serving(DispatchAwait(11))])
  const GIVEN_UP := Accepted1(0, LEASED_ROWS, WAITING_SCANNER, map[1 := Serving(DispatchReturned)])

  // The answer is lost and the lease has expired; rule and scanner may differ.
  function Expired(engine: Go.Engine, rule: Rule, procs: map<Id, Proc>): System {
    Accepted1(15, Rows(LEASED_JOB, [REQUESTED], rule), engine, procs)
  }

  const RETURNED := map[1 := Serving(DispatchReturned)]

  function Returning(pc: Pc): map<Id, Proc> {
    map[1 := Serving(DispatchReturned), 2 := Polling(15, pc)]
  }

  // The second dispatch, by a poll, under its own lease.
  function Again(engine: Go.Engine, rule: Rule, pc: Pc): System {
    Accepted1(15, Rows(RELEASED_JOB, [REQUESTED], rule), engine, Returning(pc))
      .(tokens := map[11 := 7, 12 := 7], claims := map[7 := [11, 12]])
  }

  const BLOCKED_STATE := Again(WAITING_SCANNER, DISABLED, DispatchReturned).(db := BLOCKED_ROWS)

  function Reattached(engine: Go.Engine): System {
    Again(engine, RULE, DispatchSend(REATTACHMENT)).(attachments := {ATTACHMENT, REATTACHMENT})
  }

  function Resent(engine: Go.Engine): System {
    Again(engine, RULE, DispatchAwait(12)).(attachments := {ATTACHMENT, REATTACHMENT}, sent := map[12 := REMESSAGE])
  }

  // The retry is answered.
  function Answered2(engine: Go.Engine, scannerId: Id, creators: map<Id, Attachment>): System {
    Again(engine, RULE, DispatchAwait(12))
      .(attachments := {ATTACHMENT, REATTACHMENT}, creators := creators,
        replies := map[11 := Accepted(21, REQUEST), 12 := Accepted(scannerId, REQUEST)])
  }

  const DUPLICATE_SCANNER := Go.Engine(
    Store.Store(map[22 := Store.NewScanJob(22, REQUEST, 15)], map[7 := 22], 10, 1000),
    map[22 := Go.Worker(false, ScanConfig(REQUEST, ["b"]))],
    map[21 := Go.Origin(Some(7), CONFIG), 22 := Go.Origin(Some(7), ScanConfig(REQUEST, ["b"]))])

  const DUPLICATED := Answered2(DUPLICATE_SCANNER, 22, map[21 := ATTACHMENT, 22 := REATTACHMENT])
  const REMINDED := Answered2(WAITING_SCANNER, 21, map[21 := ATTACHMENT])
  const LATE_SCANNER :=
    Scanner(SCANNER_JOB.(status := Store.Running, updatedAt := 15), map[21 := Go.Worker(true, CONFIG)])
  const LATE := REMINDED.(engine := LATE_SCANNER)
  const DIALLED := LATE.(dials := {(21, "a")})

  // Two polls of a running scan, one of them slow.
  function Polls(db: Database, engine: Go.Engine, slow: Pc, quick: Pc): System {
    Accepted1(0, db, engine, map[1 := Serving(DispatchReturned), 2 := Polling(0, slow), 3 := Polling(0, quick)])
  }

  const RECEIVED := Accepted1(0, LEASED_ROWS, WAITING_SCANNER, map[1 := Serving(DispatchMark(11, 21))])
  const RUNNING_STATE := Accepted1(0, RUNNING_ROWS, WAITING_SCANNER, RETURNED)
  const WORKING := Accepted1(0, RUNNING_ROWS, WORKING_SCANNER, RETURNED)
  const DONE := Accepted1(0, RUNNING_ROWS, DONE_SCANNER, RETURNED)
  const FETCH := PollFetch(21, RUNNING_JOB)
  const SLOW_POLL :=
    Accepted1(0, RUNNING_ROWS, DONE_SCANNER, map[1 := Serving(DispatchReturned), 2 := Polling(0, FETCH)])
  const EMPTY_ANSWER :=
    Accepted1(0, COMPLETED_ROWS, EMPTY_SCANNER,
              map[1 := Serving(DispatchReturned), 3 := Polling(0, PollRefresh(false))])
      .(responses := [Response(7, COMPLETED_JOB, map[], true, 0)])

  // ----------------------------------------------- admission and the first dispatch

  lemma AdmitSteps()
    ensures Next(NOTHING, Arrive(1, Admission(7, OWNER, REQUEST, Some(5))), Admitting(AdmitLock, map[]))
    ensures Next(Admitting(AdmitLock, map[]), Proceed(1, TakeLock), Admitting(AdmitCount, map[0 := 1]))
  {
    hide ProceedStep, HappenStep, CanHappen;
    ProceedIs(ENV, Admitting(AdmitLock, map[]), 1, TakeLock);
  }

  lemma CountStepIs()
    ensures Next(Admitting(AdmitCount, map[0 := 1]), Proceed(1, CountActive), Admitting(AdmitInsert, map[0 := 1]))
  {
    hide ProceedStep, HappenStep, CanHappen, ArriveStep, CanArrive;
    ProceedIs(ENV, Admitting(AdmitCount, map[0 := 1]), 1, CountActive);
    assert ActiveOf(NOTHING.db, OWNER) == {};
  }

  lemma InsertStepIs()
    ensures Next(Admitting(AdmitInsert, map[0 := 1]), Proceed(1, InsertRow), Admitting(AdmitCommit(true), map[0 := 1]))
  {
    hide ProceedStep, HappenStep, CanHappen, ArriveStep, CanArrive;
    ProceedIs(ENV, Admitting(AdmitInsert, map[0 := 1]), 1, InsertRow);
  }

  lemma CommitStepIs()
    ensures Next(Admitting(AdmitCommit(true), map[0 := 1]), Proceed(1, CommitAdmission), ADMITTED)
  {
    hide ProceedStep, HappenStep, CanHappen, ArriveStep, CanArrive, InsertQueued;
    ProceedIs(ENV, Admitting(AdmitCommit(true), map[0 := 1]), 1, CommitAdmission);
    InsertWrite();
  }

  lemma ClaimStepIs()
    ensures Next(ADMITTED, Proceed(1, Claim(11, 0)), Dispatching(DispatchAuthorize(11)))
  {
    hide ProceedStep, HappenStep, CanHappen, ArriveStep, CanArrive, ClaimDispatch;
    ProceedIs(ENV, ADMITTED, 1, Claim(11, 0));
    ClaimWrite();
  }

  lemma AuthorizeStepIs()
    ensures Next(Dispatching(DispatchAuthorize(11)), Proceed(1, Authorize(Grant(5, ["a"]), 0)),
                 Dispatching(DispatchAttach(11, 5, ["a"])))
  {
    hide ProceedStep, HappenStep, CanHappen, ArriveStep, CanArrive;
    ProceedIs(ENV, Dispatching(DispatchAuthorize(11)), 1, Authorize(Grant(5, ["a"]), 0));
  }

  lemma AttachStepIs()
    ensures Next(Dispatching(DispatchAttach(11, 5, ["a"])), Proceed(1, Attach(0)), ATTACHED)
  {
    hide ProceedStep, HappenStep, CanHappen, ArriveStep, CanArrive, AttachAllowedTarget;
    ProceedIs(ENV, Dispatching(DispatchAttach(11, 5, ["a"])), 1, Attach(0));
    AttachWrite();
  }

  lemma SendStepIs()
    ensures Next(ATTACHED, Proceed(1, SendCreate), SENT)
  {
    hide ProceedStep, HappenStep, CanHappen, ArriveStep, CanArrive;
    ProceedIs(ENV, ATTACHED, 1, SendCreate);
  }

  lemma HandleStepIs()
    ensures Next(SENT, Happen(HandleCreate(11, None, 21)), ACCEPTED)
  {
    hide ProceedStep, CanProceed, ArriveStep, CanArrive;
    hide Go.Receive;
    FirstReceive();
  }

  // ------------------------------------------ the answer is lost, the lease expires

  lemma GiveUpStepIs()
    ensures Next(ACCEPTED, Proceed(1, GiveUp), GIVEN_UP)
  {
    hide ProceedStep, HappenStep, CanHappen, ArriveStep, CanArrive;
    ProceedIs(ENV, ACCEPTED, 1, GiveUp);
  }

  lemma ExpireStepIs()
    ensures Next(GIVEN_UP, Happen(Tick(15)), Expired(WAITING_SCANNER, RULE, RETURNED))
  {
    hide ProceedStep, CanProceed, ArriveStep, CanArrive;
  }

  lemma DisableStepIs()
    ensures Next(Expired(WAITING_SCANNER, RULE, RETURNED), Happen(DisableRule(5)),
                 Expired(WAITING_SCANNER, DISABLED, RETURNED))
  {
    hide ProceedStep, CanProceed, ArriveStep, CanArrive;
  }

  lemma ForgetStepIs()
    ensures Next(Expired(WAITING_SCANNER, RULE, RETURNED), Happen(ScannerRestart), Expired(EMPTY_SCANNER, RULE,
                 RETURNED))
  {
    hide ProceedStep, CanProceed, ArriveStep, CanArrive;
  }

  lemma RetryStepIs(engine: Go.Engine, rule: Rule)
    ensures Next(Expired(engine, rule, RETURNED), Arrive(2, Poll(7)), Expired(engine, rule, Returning(DispatchClaim)))
  {
    hide ProceedStep, CanProceed, HappenStep, CanHappen;
  }

  lemma MayReclaim(engine: Go.Engine, rule: Rule)
    ensures CanProceed(ENV, Expired(engine, rule, Returning(DispatchClaim)), 2, Claim(12, 15))
  {}

  lemma Reclaims(engine: Go.Engine, rule: Rule)
    ensures 2 in Expired(engine, rule, Returning(DispatchClaim)).procs
    ensures ClaimStep(ENV, Expired(engine, rule, Returning(DispatchClaim)), 2, 12, 15)
      == Again(engine, rule, DispatchAuthorize(12))
  {
    hide ClaimDispatch;
    SecondClaimWrite(rule);
  }

  lemma ReclaimStepIs(engine: Go.Engine, rule: Rule)
    ensures Next(Expired(engine, rule, Returning(DispatchClaim)), Proceed(2, Claim(12, 15)),
                 Again(engine, rule, DispatchAuthorize(12)))
  {
    hide ProceedStep, CanProceed, HappenStep, CanHappen, ArriveStep, CanArrive, ClaimStep, Expired, Again;
    MayReclaim(engine, rule);
    Reclaims(engine, rule);
    ProceedIs(ENV, Expired(engine, rule, Returning(DispatchClaim)), 2, Claim(12, 15));
  }

  // ------------------------------------------------------ refused under the new lease

  lemma DenyStepIs()
    ensures Next(Again(WAITING_SCANNER, DISABLED, DispatchAuthorize(12)), Proceed(2, Authorize(Deny(BlockedTarget),
                 15)),
                 Again(WAITING_SCANNER, DISABLED, DispatchFail(12, BlockedTarget, true)))
  {
    hide ProceedStep, HappenStep, CanHappen, ArriveStep, CanArrive;
    ProceedIs(ENV, Again(WAITING_SCANNER, DISABLED, DispatchAuthorize(12)), 2, Authorize(Deny(BlockedTarget), 15));
  }

  lemma BlockStepIs()
    ensures Next(Again(WAITING_SCANNER, DISABLED, DispatchFail(12, BlockedTarget, true)), Proceed(2, RecordFailure(15)),
                 BLOCKED_STATE)
  {
    hide ProceedStep, HappenStep, CanHappen, ArriveStep, CanArrive, MarkDispatchFailed;
    ProceedIs(ENV, Again(WAITING_SCANNER, DISABLED, DispatchFail(12, BlockedTarget, true)), 2, RecordFailure(15));
    BlockWrite();
  }

  // ----------------------------------------------------- or granted, with other pins

  lemma RegrantStepIs(engine: Go.Engine)
    ensures Next(Again(engine, RULE, DispatchAuthorize(12)), Proceed(2, Authorize(Grant(5, ["b"]), 15)),
                 Again(engine, RULE, DispatchAttach(12, 5, ["b"])))
  {
    hide ProceedStep, HappenStep, CanHappen, ArriveStep, CanArrive;
    ProceedIs(ENV, Again(engine, RULE, DispatchAuthorize(12)), 2, Authorize(Grant(5, ["b"]), 15));
  }

  lemma ReattachStepIs(engine: Go.Engine)
    ensures Next(Again(engine, RULE, DispatchAttach(12, 5, ["b"])), Proceed(2, Attach(15)), Reattached(engine))
  {
    hide ProceedStep, HappenStep, CanHappen, ArriveStep, CanArrive, AttachAllowedTarget;
    ProceedIs(ENV, Again(engine, RULE, DispatchAttach(12, 5, ["b"])), 2, Attach(15));
    SecondAttachWrite();
  }

  lemma ResendStepIs(engine: Go.Engine)
    ensures Next(Reattached(engine), Proceed(2, SendCreate), Resent(engine))
  {
    hide ProceedStep, HappenStep, CanHappen, ArriveStep, CanArrive;
    ProceedIs(ENV, Reattached(engine), 2, SendCreate);
  }

  // A restarted scanner knows nothing of the first message.
  lemma DuplicateStepIs()
    ensures Next(Resent(EMPTY_SCANNER), Happen(HandleCreate(12, None, 22)), DUPLICATED)
  {
    hide ProceedStep, CanProceed, ArriveStep, CanArrive;
    hide Go.Receive;
    DuplicateReceive();
  }

  // One that still holds the job compares target and ports, and answers with it.
  lemma RemindStepIs()
    ensures Next(Resent(WAITING_SCANNER), Happen(HandleCreate(12, None, 22)), REMINDED)
  {
    hide ProceedStep, CanProceed, ArriveStep, CanArrive;
    hide Go.Receive;
    RemindReceive();
  }

  lemma LateStepIs()
    ensures Next(REMINDED, Happen(ScannerStart(21)), LATE)
  {
    hide ProceedStep, CanProceed, ArriveStep, CanArrive;
    StartAlone(15);
  }

  lemma DialStepIs()
    ensures Next(LATE, Happen(ScannerDial(21, "a")), DIALLED)
  {
    hide ProceedStep, CanProceed, ArriveStep, CanArrive;
  }

  // ----------------------------------------------------- two polls, one of them slow

  lemma ReceiveStepIs()
    ensures Next(ACCEPTED, Proceed(1, ReceiveCreate), RECEIVED)
  {
    hide ProceedStep, HappenStep, CanHappen, ArriveStep, CanArrive;
    ProceedIs(ENV, ACCEPTED, 1, ReceiveCreate);
  }

  lemma MarkStepIs()
    ensures Next(RECEIVED, Proceed(1, RecordDispatch(0)), RUNNING_STATE)
  {
    hide ProceedStep, HappenStep, CanHappen, ArriveStep, CanArrive, MarkDispatched;
    ProceedIs(ENV, RECEIVED, 1, RecordDispatch(0));
    StartWrite();
  }

  lemma StartStepIs()
    ensures Next(RUNNING_STATE, Happen(ScannerStart(21)), WORKING)
  {
    hide ProceedStep, CanProceed, ArriveStep, CanArrive;
    StartAlone(0);
  }

  lemma FinishStepIs()
    ensures Next(WORKING, Happen(ScannerFinish(21, Go.Succeeded(RESULT))), DONE)
  {
    hide ProceedStep, CanProceed, ArriveStep, CanArrive;
    FinishAlone();
  }

  lemma SlowPollStepIs()
    ensures Next(DONE, Arrive(2, Poll(7)), SLOW_POLL)
  {
    hide ProceedStep, CanProceed, HappenStep, CanHappen;
  }

  lemma QuickPollStepIs()
    ensures Next(SLOW_POLL, Arrive(3, Poll(7)), Polls(RUNNING_ROWS, DONE_SCANNER, FETCH, FETCH))
  {
    hide ProceedStep, CanProceed, HappenStep, CanHappen;
  }

  lemma FetchStepIs()
    ensures Next(Polls(RUNNING_ROWS, DONE_SCANNER, FETCH, FETCH), Proceed(3, Fetch(Reached)),
                 Polls(RUNNING_ROWS, DONE_SCANNER, FETCH, PollSynchronize(21, SCANNER_DONE)))
  {
    hide ProceedStep, HappenStep, CanHappen, ArriveStep, CanArrive;
    ProceedIs(ENV, Polls(RUNNING_ROWS, DONE_SCANNER, FETCH, FETCH), 3, Fetch(Reached));
  }

  lemma CompleteStepIs()
    ensures Next(Polls(RUNNING_ROWS, DONE_SCANNER, FETCH, PollSynchronize(21, SCANNER_DONE)), Proceed(3,
                 Synchronize(0)),
                 Polls(COMPLETED_ROWS, DONE_SCANNER, FETCH, PollRefresh(false)))
  {
    hide ProceedStep, HappenStep, CanHappen, ArriveStep, CanArrive, SynchronizeCompleted;
    ProceedIs(ENV, Polls(RUNNING_ROWS, DONE_SCANNER, FETCH, PollSynchronize(21, SCANNER_DONE)), 3, Synchronize(0));
    CompleteWrite();
  }

  lemma RestartStepIs()
    ensures Next(Polls(COMPLETED_ROWS, DONE_SCANNER, FETCH, PollRefresh(false)), Happen(ScannerRestart),
                 Polls(COMPLETED_ROWS, EMPTY_SCANNER, FETCH, PollRefresh(false)))
  {
    hide ProceedStep, CanProceed, ArriveStep, CanArrive;
  }

  lemma MissStepIs()
    ensures Next(Polls(COMPLETED_ROWS, EMPTY_SCANNER, FETCH, PollRefresh(false)), Proceed(2, Fetch(Reached)),
                 Polls(COMPLETED_ROWS, EMPTY_SCANNER, PollFail(ScanNotFound), PollRefresh(false)))
  {
    hide ProceedStep, HappenStep, CanHappen, ArriveStep, CanArrive;
    ProceedIs(ENV, Polls(COMPLETED_ROWS, EMPTY_SCANNER, FETCH, PollRefresh(false)), 2, Fetch(Reached));
  }

  lemma SkipStepIs()
    ensures Next(Polls(COMPLETED_ROWS, EMPTY_SCANNER, PollFail(ScanNotFound), PollRefresh(false)), Proceed(2,
                 Synchronize(0)),
                 Polls(COMPLETED_ROWS, EMPTY_SCANNER, PollRefresh(true), PollRefresh(false)))
  {
    hide ProceedStep, HappenStep, CanHappen, ArriveStep, CanArrive, MarkSynchronizationFailed;
    ProceedIs(ENV, Polls(COMPLETED_ROWS, EMPTY_SCANNER, PollFail(ScanNotFound), PollRefresh(false)), 2, Synchronize(0));
    NothingToFail();
  }

  lemma EmptyAnswerStepIs()
    ensures Next(Polls(COMPLETED_ROWS, EMPTY_SCANNER, PollRefresh(true), PollRefresh(false)), Proceed(2, Refresh),
                 EMPTY_ANSWER)
  {
    hide ProceedStep, HappenStep, CanHappen, ArriveStep, CanArrive;
    ProceedIs(ENV, Polls(COMPLETED_ROWS, EMPTY_SCANNER, PollRefresh(true), PollRefresh(false)), 2, Refresh);
  }

  // --------------------------------------------------------- the writes of these steps

  lemma InsertWrite()
    ensures InsertQueued(NOTHING.db, 7, OWNER, REQUEST, Some(5), 0) == Applied(QUEUED_ROWS)
  {
    assert NOTHING.db.audit + [REQUESTED] == [REQUESTED];
  }

  const NO_CLAIMS: seq<Id> := []

  lemma ClaimWrite()
    ensures ClaimDispatch(QUEUED_ROWS, 7, 11, 15, 0) == Applied(LEASED_ROWS)
    ensures NO_CLAIMS + [11] == [11]
  {}

  lemma AttachWrite()
    ensures AttachAllowedTarget(LEASED_ROWS, 7, 5, 11, 0) == Applied(LEASED_ROWS)
  {}

  lemma SecondClaimWrite(rule: Rule)
    ensures ClaimDispatch(Rows(LEASED_JOB, [REQUESTED], rule), 7, 12, 15, 15) == Applied(Rows(RELEASED_JOB,
        [REQUESTED], rule))
    ensures NO_CLAIMS + [11] == [11] && [11] + [12] == [11, 12]
  {}

  lemma SecondAttachWrite()
    ensures AttachAllowedTarget(Rows(RELEASED_JOB, [REQUESTED], RULE), 7, 5, 12, 15)
      == Applied(Rows(RELEASED_JOB, [REQUESTED], RULE))
  {}

  lemma BlockWrite()
    ensures MarkDispatchFailed(Rows(RELEASED_JOB, [REQUESTED], DISABLED), 7, OWNER, BlockedTarget, true, 12, 15)
      == Applied(BLOCKED_ROWS)
  {
    assert [REQUESTED] + [BLOCKED_EVENT] == [REQUESTED, BLOCKED_EVENT];
  }

  lemma StartWrite()
    ensures MarkDispatched(LEASED_ROWS, 7, OWNER, 21, 11, 0) == Applied(RUNNING_ROWS)
  {
    assert [REQUESTED] + [STARTED] == [REQUESTED, STARTED];
  }

  lemma CompleteWrite()
    ensures SynchronizeCompleted(RUNNING_ROWS, 7, OWNER, RESULT, 0) == Applied(COMPLETED_ROWS)
  {
    assert [REQUESTED, STARTED] + [COMPLETED_EVENT] == [REQUESTED, STARTED, COMPLETED_EVENT];
    assert RESULT.results[..0] == [];
    assert InsertResults(map[], RESULT.results) == map[Endpoint("a", 80) := Open];
  }

  lemma NothingToFail()
    ensures MarkSynchronizationFailed(COMPLETED_ROWS, 7, OWNER, ScanNotFound, 0) == Unchanged
  {}

  lemma FirstReceive()
    ensures Go.Receive(NOTHING.engine, 21, CONFIG, Some(7), 0) == (WAITING_SCANNER, Store.Admitted(SCANNER_JOB, true))
  {
    hide Go.Receive;
    var e := NOTHING.engine;
    assert Store.ActiveIds(e.store.jobs) == {} && e.workers.Keys == {};
    Go.ReceiveNew(e, 21, CONFIG, Some(7), 0);
    assert Go.Created(e, 21, CONFIG, Some(7), 0) == WAITING_SCANNER;
  }

  lemma DuplicateReceive()
    ensures Go.Receive(EMPTY_SCANNER, 22, REMESSAGE.config, Some(7), 15)
      == (DUPLICATE_SCANNER, Store.Admitted(Store.NewScanJob(22, REQUEST, 15), true))
  {
    hide Go.Receive;
    var e, config := EMPTY_SCANNER, REMESSAGE.config;
    assert Store.ActiveIds(e.store.jobs) == {} && e.workers.Keys == {};
    Go.ReceiveNew(e, 22, config, Some(7), 15);
    assert Go.Created(e, 22, config, Some(7), 15) == DUPLICATE_SCANNER;
  }

  lemma RemindReceive()
    ensures Go.Receive(WAITING_SCANNER, 22, REMESSAGE.config, Some(7), 15)
      == (WAITING_SCANNER, Store.Admitted(SCANNER_JOB, false))
  {}

  lemma StartAlone(now: Time)
    ensures Go.Start(WAITING_SCANNER, 21, now)
      == Scanner(SCANNER_JOB.(status := Store.Running, updatedAt := now), map[21 := Go.Worker(true, CONFIG)])
  {
    var s := WAITING_SCANNER.store;
    assert Store.TerminalIds(s.jobs) == {};
    Store.MarkRunningInPlace(s, 21, now);
  }

  lemma FinishAlone()
    ensures Go.Finish(WORKING_SCANNER, 21, Go.Succeeded(RESULT), 0) == DONE_SCANNER
    ensures CompleteOutput(RESULT.results, CONFIG)
  {
    var s := DONE_SCANNER.store;
    assert Store.TerminalIds(s.jobs) == {21};
    Store.RetentionIdle(s);
    assert Endpoints(RESULT.results) == [Endpoint("a", 80)];
    assert Tasks(["a"], REQUEST) == [Endpoint("a", 80)];
  }

  // -------------------------------------------------------------------------- the runs

  lemma Extend(actions: seq<Action>, t: System, a: Action, u: System) returns (longer: seq<Action>)
    requires Leads(ENV, NOTHING, actions, t) && Next(t, a, u)
    ensures Leads(ENV, NOTHING, longer, u)
  {
    LeadsOn(ENV, NOTHING, actions, t, a, u);
    longer := actions + [a];
  }

  // From nothing to a scan that the scanner has accepted.
  lemma AcceptedRun() returns (actions: seq<Action>)
    ensures Leads(ENV, NOTHING, actions, ACCEPTED)
  {
    hide Enabled, Apply, Next;
    actions := [];
    assert Leads(ENV, NOTHING, actions, NOTHING);
    AdmitSteps();
    actions := Extend(actions, NOTHING, Arrive(1, Admission(7, OWNER, REQUEST, Some(5))), Admitting(AdmitLock, map[]));
    actions := Extend(actions, Admitting(AdmitLock, map[]), Proceed(1, TakeLock), Admitting(AdmitCount, map[0 := 1]));
    CountStepIs();
    actions := Extend(actions, Admitting(AdmitCount, map[0 := 1]), Proceed(1, CountActive),
                      Admitting(AdmitInsert, map[0 := 1]));
    InsertStepIs();
    actions := Extend(actions, Admitting(AdmitInsert, map[0 := 1]), Proceed(1, InsertRow),
                      Admitting(AdmitCommit(true), map[0 := 1]));
    CommitStepIs();
    actions := Extend(actions, Admitting(AdmitCommit(true), map[0 := 1]), Proceed(1, CommitAdmission), ADMITTED);
    ClaimStepIs();
    actions := Extend(actions, ADMITTED, Proceed(1, Claim(11, 0)), Dispatching(DispatchAuthorize(11)));
    AuthorizeStepIs();
    actions := Extend(actions, Dispatching(DispatchAuthorize(11)), Proceed(1, Authorize(Grant(5, ["a"]), 0)),
                      Dispatching(DispatchAttach(11, 5, ["a"])));
    AttachStepIs();
    actions := Extend(actions, Dispatching(DispatchAttach(11, 5, ["a"])), Proceed(1, Attach(0)), ATTACHED);
    SendStepIs();
    actions := Extend(actions, ATTACHED, Proceed(1, SendCreate), SENT);
    HandleStepIs();
    actions := Extend(actions, SENT, Happen(HandleCreate(11, None, 21)), ACCEPTED);
  }

  // Its answer is lost and its lease runs out.
  lemma ExpiredRun() returns (actions: seq<Action>)
    ensures Leads(ENV, NOTHING, actions, Expired(WAITING_SCANNER, RULE, RETURNED))
  {
    hide Enabled, Apply, Next;
    actions := AcceptedRun();
    GiveUpStepIs();
    actions := Extend(actions, ACCEPTED, Proceed(1, GiveUp), GIVEN_UP);
    ExpireStepIs();
    actions := Extend(actions, GIVEN_UP, Happen(Tick(15)), Expired(WAITING_SCANNER, RULE, RETURNED));
  }

  // A poll claims it again.
  lemma ReclaimedRun(before: seq<Action>, engine: Go.Engine, rule: Rule) returns (actions: seq<Action>)
    requires Leads(ENV, NOTHING, before, Expired(engine, rule, RETURNED))
    ensures Leads(ENV, NOTHING, actions, Again(engine, rule, DispatchAuthorize(12)))
  {
    hide Enabled, Apply, Next;
    RetryStepIs(engine, rule);
    actions := Extend(before, Expired(engine, rule, RETURNED), Arrive(2, Poll(7)),
                      Expired(engine, rule, Returning(DispatchClaim)));
    ReclaimStepIs(engine, rule);
    actions := Extend(actions, Expired(engine, rule, Returning(DispatchClaim)), Proceed(2, Claim(12, 15)),
                      Again(engine, rule, DispatchAuthorize(12)));
  }

  // And, if the rule still stands, sends it again, pinned elsewhere.
  lemma ResentRun(before: seq<Action>, engine: Go.Engine) returns (actions: seq<Action>)
    requires Leads(ENV, NOTHING, before, Expired(engine, RULE, RETURNED))
    ensures Leads(ENV, NOTHING, actions, Resent(engine))
  {
    hide Enabled, Apply, Next;
    actions := ReclaimedRun(before, engine, RULE);
    RegrantStepIs(engine);
    actions := Extend(actions, Again(engine, RULE, DispatchAuthorize(12)), Proceed(2, Authorize(Grant(5, ["b"]), 15)),
                      Again(engine, RULE, DispatchAttach(12, 5, ["b"])));
    ReattachStepIs(engine);
    actions := Extend(actions, Again(engine, RULE, DispatchAttach(12, 5, ["b"])), Proceed(2, Attach(15)),
                      Reattached(engine));
    ResendStepIs(engine);
    actions := Extend(actions, Reattached(engine), Proceed(2, SendCreate), Resent(engine));
  }

  lemma BlockedRun() returns (actions: seq<Action>)
    ensures Leads(ENV, NOTHING, actions, BLOCKED_STATE)
  {
    hide Enabled, Apply, Next;
    actions := ExpiredRun();
    DisableStepIs();
    actions := Extend(actions, Expired(WAITING_SCANNER, RULE, RETURNED), Happen(DisableRule(5)),
                      Expired(WAITING_SCANNER, DISABLED, RETURNED));
    actions := ReclaimedRun(actions, WAITING_SCANNER, DISABLED);
    DenyStepIs();
    actions := Extend(actions, Again(WAITING_SCANNER, DISABLED, DispatchAuthorize(12)),
                      Proceed(2, Authorize(Deny(BlockedTarget), 15)),
                      Again(WAITING_SCANNER, DISABLED, DispatchFail(12, BlockedTarget, true)));
    BlockStepIs();
    actions := Extend(actions, Again(WAITING_SCANNER, DISABLED, DispatchFail(12, BlockedTarget, true)),
                      Proceed(2, RecordFailure(15)), BLOCKED_STATE);
  }

  lemma DoneRun() returns (actions: seq<Action>)
    ensures Leads(ENV, NOTHING, actions, Polls(RUNNING_ROWS, DONE_SCANNER, FETCH, FETCH))
  {
    hide Enabled, Apply, Next;
    actions := AcceptedRun();
    ReceiveStepIs();
    actions := Extend(actions, ACCEPTED, Proceed(1, ReceiveCreate), RECEIVED);
    MarkStepIs();
    actions := Extend(actions, RECEIVED, Proceed(1, RecordDispatch(0)), RUNNING_STATE);
    StartStepIs();
    actions := Extend(actions, RUNNING_STATE, Happen(ScannerStart(21)), WORKING);
    FinishStepIs();
    actions := Extend(actions, WORKING, Happen(ScannerFinish(21, Go.Succeeded(RESULT))), DONE);
    SlowPollStepIs();
    actions := Extend(actions, DONE, Arrive(2, Poll(7)), SLOW_POLL);
    QuickPollStepIs();
    actions := Extend(actions, SLOW_POLL, Arrive(3, Poll(7)), Polls(RUNNING_ROWS, DONE_SCANNER, FETCH, FETCH));
  }

  lemma EmptyAnswerRun() returns (actions: seq<Action>)
    ensures Leads(ENV, NOTHING, actions, EMPTY_ANSWER)
  {
    hide Enabled, Apply, Next;
    actions := DoneRun();
    FetchStepIs();
    actions := Extend(actions, Polls(RUNNING_ROWS, DONE_SCANNER, FETCH, FETCH), Proceed(3, Fetch(Reached)),
                      Polls(RUNNING_ROWS, DONE_SCANNER, FETCH, PollSynchronize(21, SCANNER_DONE)));
    CompleteStepIs();
    actions := Extend(actions, Polls(RUNNING_ROWS, DONE_SCANNER, FETCH, PollSynchronize(21, SCANNER_DONE)),
                      Proceed(3, Synchronize(0)), Polls(COMPLETED_ROWS, DONE_SCANNER, FETCH, PollRefresh(false)));
    RestartStepIs();
    actions := Extend(actions, Polls(COMPLETED_ROWS, DONE_SCANNER, FETCH, PollRefresh(false)), Happen(ScannerRestart),
                      Polls(COMPLETED_ROWS, EMPTY_SCANNER, FETCH, PollRefresh(false)));
    MissStepIs();
    actions := Extend(actions, Polls(COMPLETED_ROWS, EMPTY_SCANNER, FETCH, PollRefresh(false)),
                      Proceed(2, Fetch(Reached)),
                      Polls(COMPLETED_ROWS, EMPTY_SCANNER, PollFail(ScanNotFound), PollRefresh(false)));
    SkipStepIs();
    actions := Extend(actions, Polls(COMPLETED_ROWS, EMPTY_SCANNER, PollFail(ScanNotFound), PollRefresh(false)),
                      Proceed(2, Synchronize(0)),
                      Polls(COMPLETED_ROWS, EMPTY_SCANNER, PollRefresh(true), PollRefresh(false)));
    EmptyAnswerStepIs();
    actions := Extend(actions, Polls(COMPLETED_ROWS, EMPTY_SCANNER, PollRefresh(true), PollRefresh(false)),
                      Proceed(2, Refresh), EMPTY_ANSWER);
  }

  // -------------------------------------------------------------------- what they show

  // A slow poll, overtaken by another one and by a scanner restart, tells its
  // caller that the scan is completed and that it has no results, although the
  // results are in the database.
  lemma CompletedAnswerWithoutResults() returns (states: seq<System>, actions: seq<Action>)
    ensures Execution(ENV, states, actions) && Init(ENV, states[0])
    ensures var s := states[|actions|];
      && |s.responses| == 1 && s.responses[0].scan in s.db.jobs
      && s.responses[0].job.status == COMPLETED && s.responses[0].results == map[]
      && ResultsOf(s.db, s.responses[0].scan) == map[Endpoint("a", 80) := Open]
  {
    hide Enabled, Apply, Leads;
    actions := EmptyAnswerRun();
    states := LeadsExecutes(ENV, NOTHING, actions, EMPTY_ANSWER);
  }

  // A scan whose dispatcher timed out is blocked by its next lease holder while
  // the scanner, which did accept it, is about to run it.
  lemma BlockedAfterBeingAccepted() returns (states: seq<System>, actions: seq<Action>)
    ensures Execution(ENV, states, actions) && Init(ENV, states[0])
    ensures var s := states[|actions|];
      && 7 in s.db.jobs && s.db.jobs[7].status == BLOCKED
      && 21 in s.engine.workers && 21 in s.engine.origin && s.engine.origin[21].key == Some(7)
  {
    hide Enabled, Apply, Leads;
    actions := BlockedRun();
    states := LeadsExecutes(ENV, NOTHING, actions, BLOCKED_STATE);
  }

  // The scanner accepts a scan, the answer is lost, the scanner restarts, and
  // the retry under the next lease makes it accept the same scan again.
  lemma AcceptedTwice() returns (states: seq<System>, actions: seq<Action>)
    ensures Execution(ENV, states, actions) && Init(ENV, states[0])
    ensures var s := states[|actions|];
      && 21 in s.engine.origin && s.engine.origin[21].key == Some(7)
      && 22 in s.engine.origin && s.engine.origin[22].key == Some(7)
      && 11 in s.replies && s.replies[11] == Accepted(21, REQUEST)
      && 12 in s.replies && s.replies[12] == Accepted(22, REQUEST)
  {
    hide Enabled, Apply, Leads, Next;
    actions := ExpiredRun();
    ForgetStepIs();
    actions := Extend(actions, Expired(WAITING_SCANNER, RULE, RETURNED), Happen(ScannerRestart),
                      Expired(EMPTY_SCANNER, RULE, RETURNED));
    actions := ResentRun(actions, EMPTY_SCANNER);
    DuplicateStepIs();
    actions := Extend(actions, Resent(EMPTY_SCANNER), Happen(HandleCreate(12, None, 22)), DUPLICATED);
    states := LeadsExecutes(ENV, NOTHING, actions, DUPLICATED);
  }

  // A second dispatch pins another address, is answered with the job the scanner
  // still holds, and only then is the first pin dialled.
  lemma DialsFollowTheFirstDispatch() returns (states: seq<System>, actions: seq<Action>)
    ensures Execution(ENV, states, actions) && Init(ENV, states[0]) && |actions| > 0
    ensures states[|actions| - 1].dials == {} && states[|actions|].dials == {(21, "a")}
    ensures var s := states[|actions|];
      && REATTACHMENT in s.attachments && REATTACHMENT.scan == 7 && REATTACHMENT.pins == ["b"]
      && 7 in s.claims && s.claims[7] == [11, REATTACHMENT.token]
      && REATTACHMENT.token in s.replies && s.replies[REATTACHMENT.token] == Accepted(21, REQUEST)
  {
    hide Enabled, Apply, Leads, Next;
    actions := ExpiredRun();
    actions := ResentRun(actions, WAITING_SCANNER);
    RemindStepIs();
    actions := Extend(actions, Resent(WAITING_SCANNER), Happen(HandleCreate(12, None, 22)), REMINDED);
    LateStepIs();
    actions := Extend(actions, REMINDED, Happen(ScannerStart(21)), LATE);
    DialStepIs();
    states := DialledLast(actions);
    actions := actions + [Happen(ScannerDial(21, "a"))];
  }

  lemma DialledLast(actions: seq<Action>) returns (states: seq<System>)
    requires Leads(ENV, NOTHING, actions, LATE) && Next(LATE, Happen(ScannerDial(21, "a")), DIALLED)
    ensures Execution(ENV, states, actions + [Happen(ScannerDial(21, "a"))]) && states[0] == NOTHING
    ensures states[|actions|] == LATE && states[|actions| + 1] == DIALLED
  {
    hide Enabled, Apply, Leads;
    var before := LeadsExecutes(ENV, NOTHING, actions, LATE);
    states := before + [DIALLED];
  }
}
