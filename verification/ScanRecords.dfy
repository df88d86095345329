// The PostgreSQL side on values: rows, the CHECK and UNIQUE constraints of the
// migrations, and every statement of persistence.bal as a function from a
// committed database to a write outcome.
module ScanRecords {
  import opened Collections
  import opened ScanTasks

  type Subject = string

  datatype Status = QUEUED | RUNNING | COMPLETED | FAILED | BLOCKED

  datatype FailureCode =
    | BlockedTarget | InvalidTarget | InvalidPortRange | InternalError | ScanNotFound | ScannerFailed

  datatype Job = Job(
    owner: Subject,
    request: ScanRequest,
    status: Status,
    allowedTarget: Option<Id>,
    scannerId: Option<Id>,
    failure: Option<FailureCode>,
    duration: Option<int>,
    createdAt: Time,
    updatedAt: Time,
    startedAt: Option<Time>,
    finishedAt: Option<Time>,
    leaseToken: Option<Id>,
    leaseExpires: Option<Time>)

  datatype AuditAction = ScanRequested | ScanBlocked | ScanStarted | ScanCompleted | ScanFailed
  datatype ActorType = User | Service
  datatype AuditOutcome = Success | Denied | Failure
  datatype Metadata =
    | Ports(startPort: int, endPort: int)
    | Empty
    | Counts(resultCount: int, durationNanos: int)
    | Code(failureCode: FailureCode)

  datatype AuditEvent = AuditEvent(
    job: Id,
    action: AuditAction,
    actorType: ActorType,
    actor: Subject,
    owner: Subject,
    outcome: AuditOutcome,
    metadata: Metadata,
    allowedTarget: Option<Id>)

  const SERVICE_NAME: Subject := "securescan-api"

  // What an allow rule matches, when, and for whom; only `enabled` ever changes.
  datatype RuleTarget = Hostname(name: string) | Network(cidr: string)
  datatype Rule = Rule(
    target: RuleTarget,
    scope: Option<Subject>,
    ports: Option<(int, int)>,
    expiresAt: Option<Time>,
    enabled: bool)

  datatype Database = Database(
    jobs: map<Id, Job>,
    results: map<Id, map<Endpoint, PortState>>,
    audit: seq<AuditEvent>,
    rules: map<Id, Rule>)

  predicate IsActive(job: Job) {
    job.status == QUEUED || job.status == RUNNING
  }

  predicate IsTerminal(job: Job) {
    !IsActive(job)
  }

  function ResultsOf(db: Database, id: Id): map<Endpoint, PortState> {
    if id in db.results then db.results[id] else map[]
  }

  // -------------------------------------------------------------- constraints

  predicate PortsCk(j: Job) {
    && 1 <= j.request.startPort <= 65535 && 1 <= j.request.endPort <= 65535
    && j.request.startPort <= j.request.endPort
  }

  predicate FailureCk(j: Job) {
    j.failure.Some? <==> j.status == FAILED || j.status == BLOCKED
  }

  predicate TimelineCk(j: Job) {
    && j.updatedAt >= j.createdAt
    && (j.startedAt.Some? ==> j.startedAt.value >= j.createdAt)
    && (j.finishedAt.Some? ==> j.finishedAt.value >= j.createdAt)
    && (j.finishedAt.Some? && j.startedAt.Some? ==> j.finishedAt.value >= j.startedAt.value)
    && match j.status
       case QUEUED => j.startedAt.None? && j.finishedAt.None?
       case RUNNING => j.startedAt.Some? && j.finishedAt.None?
       case COMPLETED => j.startedAt.Some? && j.finishedAt.Some?
       case FAILED => j.finishedAt.Some?
       case BLOCKED => j.startedAt.None? && j.finishedAt.Some?
  }

  predicate ScannerIdCk(j: Job) {
    j.status == RUNNING || j.status == COMPLETED ==> j.scannerId.Some?
  }

  // As last changed by migration V006.
  predicate BlockedCk(j: Job) {
    j.status == BLOCKED ==> j.scannerId.None?
  }

  predicate DurationCk(j: Job) {
    && (j.duration.Some? <==> j.status == COMPLETED)
    && (j.duration.Some? ==> j.duration.value >= 0)
  }

  predicate LeaseCk(j: Job) {
    || (j.leaseToken.None? && j.leaseExpires.None?)
    || (j.status == QUEUED && j.scannerId.None? && j.leaseToken.Some? && j.leaseExpires.Some?)
  }

  predicate RowChecks(j: Job) {
    PortsCk(j) && FailureCk(j) && TimelineCk(j) && ScannerIdCk(j) && BlockedCk(j) && DurationCk(j) && LeaseCk(j)
  }

  predicate ScannerIdUnique(jobs: map<Id, Job>, id: Id, j: Job) {
    j.scannerId.Some? ==> forall other :: other in jobs && other != id ==> jobs[other].scannerId != j.scannerId
  }

  // V004: the shape of a lifecycle event.
  predicate EventShape(e: AuditEvent) {
    match e.action
    case ScanRequested => e.actorType == User && e.actor == e.owner && e.outcome == Success && e.metadata.Ports?
    case ScanBlocked => e.actorType == Service && e.outcome == Denied && e.metadata.Code?
    case ScanStarted => e.actorType == Service && e.outcome == Success && e.metadata.Empty?
    case ScanCompleted => e.actorType == Service && e.outcome == Success && e.metadata.Counts?
    case ScanFailed => e.actorType == Service && e.outcome == Failure && e.metadata.Code?
  }

  // V004: at most one event per job and action.
  predicate EventAllowed(audit: seq<AuditEvent>, e: AuditEvent) {
    EventShape(e) && forall k :: 0 <= k < |audit| ==> audit[k].job != e.job || audit[k].action != e.action
  }

  // -------------------------------------------------------------------- writes

  // A statement (with its transaction) is applied, matches no row, or breaks a
  // constraint and is rolled back.
  datatype Write = Applied(db: Database) | Unchanged | Refused

  // Write one row and append at most one event, if every constraint agrees.
  function Put(db: Database, id: Id, j: Job, event: Option<AuditEvent>): Write {
    if && RowChecks(j)
       && ScannerIdUnique(db.jobs, id, j)
       && (j.allowedTarget.Some? ==> j.allowedTarget.value in db.rules)
       && (event.Some? ==> EventAllowed(db.audit, event.value))
    then Applied(db.(jobs := db.jobs[id := j],
                     audit := if event.Some? then db.audit + [event.value] else db.audit))
    else Refused
  }

  function NewJob(owner: Subject, request: ScanRequest, rule: Option<Id>, at: Time): Job {
    Job(owner, request, QUEUED, rule, None, None, None, at, at, None, None, None, None)
  }

  function RequestedEvent(id: Id, j: Job): AuditEvent {
    AuditEvent(id, ScanRequested, User, j.owner, j.owner, Success,
               Ports(j.request.startPort, j.request.endPort), j.allowedTarget)
  }

  function ServiceEvent(id: Id, owner: Subject, action: AuditAction, outcome: AuditOutcome,
                        metadata: Metadata, rule: Option<Id>): AuditEvent {
    AuditEvent(id, action, Service, SERVICE_NAME, owner, outcome, metadata, rule)
  }

  function ActiveOf(db: Database, owner: Subject): set<Id> {
    set id | id in db.jobs && db.jobs[id].owner == owner && IsActive(db.jobs[id])
  }

  // What the limit is about: rows of the owner that wait or run.
  predicate WaitOrRun(db: Database, owner: Subject, ids: set<Id>) {
    forall id :: id in ids ==>
      && id in db.jobs && db.jobs[id].owner == owner
      && (db.jobs[id].status == QUEUED || db.jobs[id].status == RUNNING)
  }

  // The count is the size of the largest such set.
  lemma CountsAllActive(db: Database, owner: Subject)
    ensures WaitOrRun(db, owner, ActiveOf(db, owner))
    ensures forall ids: set<Id> :: WaitOrRun(db, owner, ids) ==> |ids| <= |ActiveOf(db, owner)|
  {
    forall ids: set<Id> | WaitOrRun(db, owner, ids) ensures |ids| <= |ActiveOf(db, owner)| {
      SubsetSize(ids, ActiveOf(db, owner));
    }
  }

  // The INSERT of insertQueuedScan; the lock and the count precede it.
  function InsertQueued(db: Database, id: Id, owner: Subject, request: ScanRequest, rule: Option<Id>, at: Time): Write {
    var j := NewJob(owner, request, rule, at);
    if id in db.jobs then Refused else Put(db, id, j, Some(RequestedEvent(id, j)))
  }

  function BlockedJob(owner: Subject, request: ScanRequest, code: FailureCode, rule: Option<Id>, at: Time): Job {
    NewJob(owner, request, rule, at).(status := BLOCKED, failure := Some(code), finishedAt := Some(at))
  }

  // insertBlockedScan: one row, two events.
  function InsertBlocked(db: Database, id: Id, owner: Subject, request: ScanRequest, code: FailureCode,
                         rule: Option<Id>, at: Time): Write {
    var j := BlockedJob(owner, request, code, rule, at);
    if id in db.jobs then Refused
    else match Put(db, id, j, Some(RequestedEvent(id, j)))
         case Applied(inserted) =>
           Put(inserted, id, j, Some(ServiceEvent(id, owner, ScanBlocked, Denied, Code(code), rule)))
         case other => other
  }

  function ClaimDispatch(db: Database, id: Id, token: Id, leaseSeconds: nat, at: Time): Write {
    if && id in db.jobs && db.jobs[id].status == QUEUED && db.jobs[id].scannerId.None?
       && (db.jobs[id].leaseExpires.None? || db.jobs[id].leaseExpires.value <= at)
    then Put(db, id, db.jobs[id].(leaseToken := Some(token), leaseExpires := Some(at + leaseSeconds),
                                  updatedAt := at), None)
    else Unchanged
  }

  predicate HoldsLease(db: Database, id: Id, token: Id) {
    id in db.jobs && db.jobs[id].status == QUEUED && db.jobs[id].leaseToken == Some(token)
  }

  predicate Unexpired(rule: Rule, at: Time) {
    rule.expiresAt.Some? ==> rule.expiresAt.value > at
  }

  function AttachAllowedTarget(db: Database, id: Id, rule: Id, token: Id, at: Time): Write {
    if HoldsLease(db, id, token) && rule in db.rules && db.rules[rule].enabled && Unexpired(db.rules[rule], at)
    then Put(db, id, db.jobs[id].(allowedTarget := Some(rule), updatedAt := at), None)
    else Unchanged
  }

  function MarkDispatched(db: Database, id: Id, owner: Subject, scannerId: Id, token: Id, at: Time): Write {
    if HoldsLease(db, id, token)
    then Put(db, id,
             db.jobs[id].(scannerId := Some(scannerId), status := RUNNING, startedAt := Some(at),
                          leaseToken := None, leaseExpires := None, updatedAt := at),
             Some(ServiceEvent(id, owner, ScanStarted, Success, Empty, db.jobs[id].allowedTarget)))
    else Unchanged
  }

  function MarkDispatchFailed(db: Database, id: Id, owner: Subject, code: FailureCode, blocked: bool,
                              token: Id, at: Time): Write {
    if HoldsLease(db, id, token)
    then Put(db, id,
             db.jobs[id].(status := if blocked then BLOCKED else FAILED, failure := Some(code),
                          leaseToken := None, leaseExpires := None, finishedAt := Some(at), updatedAt := at),
             Some(ServiceEvent(id, owner, if blocked then ScanBlocked else ScanFailed,
                               if blocked then Denied else Failure, Code(code), db.jobs[id].allowedTarget)))
    else Unchanged
  }

  function MarkSynchronizationFailed(db: Database, id: Id, owner: Subject, code: FailureCode, at: Time): Write {
    if id in db.jobs && IsActive(db.jobs[id])
    then Put(db, id,
             db.jobs[id].(status := FAILED, failure := Some(code), finishedAt := Some(at), updatedAt := at),
             Some(ServiceEvent(id, owner, ScanFailed, Failure, Code(code), db.jobs[id].allowedTarget)))
    else Unchanged
  }

  // INSERT ... ON CONFLICT DO NOTHING, row after row.
  function InsertResults(table: map<Endpoint, PortState>, rows: seq<PortResult>): map<Endpoint, PortState>
    decreases |rows|
  {
    if rows == [] then table
    else
      var before, last := InsertResults(table, rows[..|rows| - 1]), rows[|rows| - 1];
      if last.endpoint in before then before else before[last.endpoint := last.state]
  }

  // The transaction of synchronizeScanJob for a completed scanner job.
  function SynchronizeCompleted(db: Database, id: Id, owner: Subject, result: ScanResult, at: Time): Write {
    if id in db.jobs && db.jobs[id].owner == owner && IsActive(db.jobs[id])
    then match Put(db, id,
                   db.jobs[id].(status := COMPLETED, duration := Some(result.duration),
                                finishedAt := Some(at), updatedAt := at),
                   Some(ServiceEvent(id, owner, ScanCompleted, Success,
                                     Counts(|result.results|, result.duration), db.jobs[id].allowedTarget)))
         case Applied(after) =>
           Applied(after.(results := after.results[id := InsertResults(ResultsOf(db, id), result.results)]))
         case other => other
    else Unchanged
  }

  // -------------------------------------------------------------- the automaton

  predicate StatusReaches(a: Status, b: Status) {
    a == b || a == QUEUED || (a == RUNNING && (b == COMPLETED || b == FAILED))
  }

  // One row, earlier and later.
  predicate JobEvolves(a: Job, b: Job) {
    && a.owner == b.owner && a.request == b.request && a.createdAt == b.createdAt
    && StatusReaches(a.status, b.status)
    && (IsTerminal(a) ==> b == a)
    && (a.scannerId.Some? ==> b.scannerId == a.scannerId && b.startedAt == a.startedAt)
    && (a.scannerId.None? && b.scannerId.Some? ==> a.status == QUEUED && b.status != QUEUED && b.status != BLOCKED)
    && (b.status == QUEUED && a.leaseExpires.Some? ==>
          b.leaseExpires.Some? && a.leaseExpires.value <= b.leaseExpires.value)
  }

  lemma JobEvolvesTransitive(a: Job, b: Job, c: Job)
    requires JobEvolves(a, b) && JobEvolves(b, c)
    ensures JobEvolves(a, c)
  {}

  // ------------------------------------------------------------- audit as history

  function EventsOf(audit: seq<AuditEvent>, id: Id): seq<AuditEvent> {
    if audit == [] then []
    else
      var rest := EventsOf(audit[..|audit| - 1], id);
      if audit[|audit| - 1].job == id then rest + [audit[|audit| - 1]] else rest
  }

  function Actions(events: seq<AuditEvent>): seq<AuditAction> {
    seq(|events|, i requires 0 <= i < |events| => events[i].action)
  }

  lemma EventsOfAppend(audit: seq<AuditEvent>, e: AuditEvent, id: Id)
    ensures EventsOf(audit + [e], id) == if e.job == id then EventsOf(audit, id) + [e] else EventsOf(audit, id)
  {
    assert (audit + [e])[..|audit|] == audit;
  }

  // Each event read as a transition from nothing; None is an illegal history.
  function Replay(actions: seq<AuditAction>): Option<Status> {
    if |actions| == 0 then None
    else if |actions| == 1 then (if actions[0] == ScanRequested then Some(QUEUED) else None)
    else
      var before := Replay(actions[..|actions| - 1]);
      match actions[|actions| - 1]
      case ScanRequested => None
      case ScanBlocked => if before == Some(QUEUED) then Some(BLOCKED) else None
      case ScanStarted => if before == Some(QUEUED) then Some(RUNNING) else None
      case ScanCompleted => if before == Some(RUNNING) then Some(COMPLETED) else None
      case ScanFailed => if before == Some(QUEUED) || before == Some(RUNNING) then Some(FAILED) else None
  }

  // The six legal histories.
  function LifeWord(j: Job): seq<AuditAction> {
    match j.status
    case QUEUED => [ScanRequested]
    case RUNNING => [ScanRequested, ScanStarted]
    case COMPLETED => [ScanRequested, ScanStarted, ScanCompleted]
    case BLOCKED => [ScanRequested, ScanBlocked]
    case FAILED => if j.startedAt.Some? then [ScanRequested, ScanStarted, ScanFailed] else [ScanRequested, ScanFailed]
  }

  lemma LifeWordReplays(j: Job)
    ensures Replay(LifeWord(j)) == Some(j.status)
  {
    var w := LifeWord(j);
    assert Replay([ScanRequested]) == Some(QUEUED);
    if |w| > 1 {
      assert w[..1] == [ScanRequested];
      assert Replay(w[..2][..1]) == Some(QUEUED) by { assert w[..2][..1] == w[..1]; }
      if |w| == 3 {
        assert Replay(w[..2]) == Some(RUNNING);
      } else {
        assert w[..|w| - 1] == w[..1];
      }
    }
  }

  // A job's events tell its whole story: the actions are its life so far, the
  // request is the one it was made with, and the last event carries what the
  // row ended with.
  predicate EventsFit(events: seq<AuditEvent>, j: Job, resultCount: int) {
    && Actions(events) == LifeWord(j)
    && |events| == |LifeWord(j)|
    && (forall i :: 0 <= i < |events| ==> events[i].owner == j.owner)
    && events[0].metadata == Ports(j.request.startPort, j.request.endPort)
    && (j.failure.Some? ==> events[|events| - 1].metadata == Code(j.failure.value))
    && (j.status == COMPLETED && j.duration.Some? ==>
          events[|events| - 1].metadata == Counts(resultCount, j.duration.value))
  }

  // An action absent from a job's history is free in the unique index.
  lemma {:induction false} AbsentActionIsFree(audit: seq<AuditEvent>, e: AuditEvent)
    requires EventShape(e)
    requires forall i :: 0 <= i < |EventsOf(audit, e.job)| ==> EventsOf(audit, e.job)[i].action != e.action
    ensures EventAllowed(audit, e)
  {
    if audit != [] {
      var rest, last := audit[..|audit| - 1], audit[|audit| - 1];
      var events, before := EventsOf(audit, e.job), EventsOf(rest, e.job);
      assert last.job == e.job ==> events == before + [last];
      forall i | 0 <= i < |before| ensures before[i].action != e.action {
        assert before[i] == events[i];
      }
      AbsentActionIsFree(rest, e);
      if last.job == e.job {
        assert events[|events| - 1] == last;
      }
      forall k | 0 <= k < |audit| ensures audit[k].job != e.job || audit[k].action != e.action {
        if k < |audit| - 1 {
          assert rest[k] == audit[k];
        }
      }
    }
  }

  // -------------------------------------------------------------------- results

  ghost predicate RowsStored(table: map<Endpoint, PortState>, rows: seq<PortResult>) {
    forall i :: 0 <= i < |rows| ==> rows[i].endpoint in table && table[rows[i].endpoint] == rows[i].state
  }

  // Rows for pairwise different endpoints are all inserted and nothing else is:
  // the conflict clause never drops one.
  lemma {:induction false} InsertResultsKeys(rows: seq<PortResult>)
    requires Distinct(Endpoints(rows))
    ensures InsertResults(map[], rows).Keys == Elements(Endpoints(rows))
    ensures |InsertResults(map[], rows).Keys| == |rows|
  {
    hide InsertResults, Endpoints;
    if rows == [] {
      NothingInserted(rows);
    } else {
      var rest, last := rows[..|rows| - 1], rows[|rows| - 1];
      InsertedLast(rows);
      InsertResultsKeys(rest);
      var before := InsertResults(map[], rest);
      assert InsertResults(map[], rows).Keys == before.Keys + {last.endpoint};
    }
  }

  lemma NothingInserted(rows: seq<PortResult>)
    requires rows == []
    ensures InsertResults(map[], rows) == map[] && Endpoints(rows) == []
  {}

  lemma InsertedLast(rows: seq<PortResult>)
    requires rows != [] && Distinct(Endpoints(rows))
    ensures var rest, last := rows[..|rows| - 1], rows[|rows| - 1];
      && Distinct(Endpoints(rest)) && last.endpoint !in Elements(Endpoints(rest))
      && Elements(Endpoints(rows)) == Elements(Endpoints(rest)) + {last.endpoint}
      && InsertResults(map[], rows) ==
           var before := InsertResults(map[], rest);
           if last.endpoint in before then before else before[last.endpoint := last.state]
  {
    var rest, last := rows[..|rows| - 1], rows[|rows| - 1];
    var points := Endpoints(rows);
    assert points == Endpoints(rest) + [last.endpoint];
    assert points[..|rest|] == Endpoints(rest);
    DistinctInit(points);
  }

  // And each one keeps its own state.
  lemma {:induction false} InsertResultsStates(rows: seq<PortResult>)
    requires Distinct(Endpoints(rows))
    ensures RowsStored(InsertResults(map[], rows), rows)
  {
    hide InsertResults;
    if rows != [] {
      var rest, last := rows[..|rows| - 1], rows[|rows| - 1];
      assert Distinct(Endpoints(rest)) by {
        assert Endpoints(rows)[..|rest|] == Endpoints(rest);
        DistinctInit(Endpoints(rows));
      }
      InsertResultsStates(rest);
      LastRowStored(rows);
      var before, after := InsertResults(map[], rest), InsertResults(map[], rows);
      assert after == before[last.endpoint := last.state] && last.endpoint !in before;
      forall i | 0 <= i < |rows| ensures rows[i].endpoint in after && after[rows[i].endpoint] == rows[i].state {
        if i < |rest| {
          assert rest[i] == rows[i] && rest[i].endpoint in before;
        }
      }
    }
  }

  lemma LastRowStored(rows: seq<PortResult>)
    requires rows != [] && Distinct(Endpoints(rows))
    ensures var last := rows[|rows| - 1];
      InsertResults(map[], rows) == InsertResults(map[], rows[..|rows| - 1])[last.endpoint := last.state]
    ensures rows[|rows| - 1].endpoint !in InsertResults(map[], rows[..|rows| - 1])
  {
    var points := Endpoints(rows);
    assert points[..|rows| - 1] == Endpoints(rows[..|rows| - 1]);
    DistinctInit(points);
    InsertResultsKeys(rows[..|rows| - 1]);
    assert points[|rows| - 1] !in Elements(Endpoints(rows[..|rows| - 1]));
  }
}
