// ballerina-api/persistence.bal statement by statement: each operation updates
// the tables in place inside a transaction and rolls back when a constraint
// refuses a statement. Every method is proved to commit exactly what the
// one-step function of module ScanRecords says, which is what lets the protocol
// treat it as a single step.
module Persistence {
  import opened Collections
  import opened ScanTasks
  import opened ScanRecords
  import Store = JobStore

  datatype UpdateOutcome = APPLIED | UNCHANGED | ERROR
  datatype InsertOutcome = CREATED | LIMIT_REACHED | INSERT_ERROR

  // A database call committed the given write: applied, matched nothing, or
  // rolled back with an error.
  predicate Committed(before: Database, after: Database, outcome: UpdateOutcome, w: Write) {
    match w
    case Applied(db) => outcome == APPLIED && after == db
    case Unchanged => outcome == UNCHANGED && after == before
    case Refused => outcome == ERROR && after == before
  }

  predicate RowAllowed(db: Database, id: Id, j: Job) {
    && RowChecks(j)
    && ScannerIdUnique(db.jobs, id, j)
    && (j.allowedTarget.Some? ==> j.allowedTarget.value in db.rules)
  }

  class Client {
    var jobs: map<Id, Job>
    var results: map<Id, map<Endpoint, PortState>>
    var audit: seq<AuditEvent>
    var rules: map<Id, Rule>
    const leaseSeconds: nat
    const maxActiveScansPerOwner: nat

    constructor (leaseSeconds: nat, maxActiveScansPerOwner: nat)
      ensures AsDatabase() == Database(map[], map[], [], map[])
    {
      jobs, results, audit, rules := map[], map[], [], map[];
      this.leaseSeconds, this.maxActiveScansPerOwner := leaseSeconds, maxActiveScansPerOwner;
    }

    function AsDatabase(): Database
      reads this
    {
      Database(jobs, results, audit, rules)
    }

    // ------------------------------------------------------------- statements

    method Rollback(begun: Database)
      modifies this
      ensures AsDatabase() == begun
    {
      jobs, results, audit, rules := begun.jobs, begun.results, begun.audit, begun.rules;
    }

    method WriteJob(id: Id, j: Job) returns (ok: bool)
      modifies this`jobs
      ensures ok <==> RowAllowed(old(AsDatabase()), id, j)
      ensures jobs == if ok then old(jobs)[id := j] else old(jobs)
    {
      ok := RowAllowed(AsDatabase(), id, j);
      if ok {
        jobs := jobs[id := j];
      }
    }

    // The event takes its rule from the row as the transaction sees it.
    method InsertAuditEvent(actorType: ActorType, actor: Subject, owner: Subject, action: AuditAction,
                            outcome: AuditOutcome, scanId: Id, metadata: Metadata)
      returns (ok: bool)
      modifies this`audit
      ensures var rule := if scanId in jobs then jobs[scanId].allowedTarget else None;
        var e := AuditEvent(scanId, action, actorType, actor, owner, outcome, metadata, rule);
        && (ok <==> EventAllowed(old(audit), e))
        && audit == if ok then old(audit) + [e] else old(audit)
      ensures ok <==> (
        && (actorType == User <==> action == ScanRequested) && (action == ScanRequested ==> actor == owner)
        && outcome == (if action == ScanBlocked then Denied else if action == ScanFailed then Failure else Success)
        && (metadata.Ports? <==> action == ScanRequested)
        && (metadata.Code? <==> action == ScanBlocked || action == ScanFailed)
        && (metadata.Counts? <==> action == ScanCompleted)
        && forall k :: 0 <= k < |old(audit)| ==> old(audit)[k].job != scanId || old(audit)[k].action != action)
    {
      var rule := if scanId in jobs then jobs[scanId].allowedTarget else None;
      var e := AuditEvent(scanId, action, actorType, actor, owner, outcome, metadata, rule);
      ok := EventAllowed(audit, e);
      if ok {
        audit := audit + [e];
      }
    }

    // The batch of INSERT ... ON CONFLICT (scan_job_id, address, port) DO NOTHING.
    method InsertRows(id: Id, rows: seq<PortResult>)
      modifies this`results
      ensures results == old(results)[id := InsertResults(ResultsOf(old(AsDatabase()), id), rows)]
      ensures id in results
    {
      var table := ResultsOf(AsDatabase(), id);
      for i := 0 to |rows|
        invariant table == InsertResults(ResultsOf(AsDatabase(), id), rows[..i])
      {
        assert rows[..i + 1][..i] == rows[..i];
        if rows[i].endpoint !in table {
          table := table[rows[i].endpoint := rows[i].state];
        }
      }
      assert rows[..|rows|] == rows;
      results := results[id := table];
    }

    // ------------------------------------------------------------- operations

    // Runs while the transaction holds the owner's advisory lock.
    method InsertQueuedScan(id: Id, owner: Subject, request: ScanRequest, rule: Option<Id>, at: Time)
      returns (outcome: InsertOutcome)
      modifies this
      ensures outcome == LIMIT_REACHED <==>
        exists ids: set<Id> :: WaitOrRun(old(AsDatabase()), owner, ids) && |ids| >= maxActiveScansPerOwner
      ensures outcome != CREATED ==> AsDatabase() == old(AsDatabase())
      ensures outcome == CREATED ==>
        && id !in old(jobs)
        && jobs == old(jobs)[id := Job(owner, request, QUEUED, rule, None, None, None, at, at, None, None, None, None)]
        && audit == old(audit) + [AuditEvent(id, ScanRequested, User, owner, owner, Success,
                                             Ports(request.startPort, request.endPort), rule)]
        && results == old(results) && rules == old(rules)
      ensures |ActiveOf(old(AsDatabase()), owner)| >= maxActiveScansPerOwner ==> outcome == LIMIT_REACHED
      ensures |ActiveOf(old(AsDatabase()), owner)| < maxActiveScansPerOwner
        ==> var w := InsertQueued(old(AsDatabase()), id, owner, request, rule, at);
            AsDatabase() == (if w.Applied? then w.db else old(AsDatabase()))
            && outcome == if w.Applied? then CREATED else INSERT_ERROR
    {
      hide RowChecks, ScannerIdUnique, EventAllowed, ActiveOf, WaitOrRun;
      CountsAllActive(AsDatabase(), owner);
      var begun := AsDatabase();
      var activeCount := |ActiveOf(AsDatabase(), owner)|;
      if activeCount >= maxActiveScansPerOwner {
        return LIMIT_REACHED;
      }
      if id in jobs {
        return INSERT_ERROR;
      }
      var ok := WriteJob(id, NewJob(owner, request, rule, at));
      if ok {
        ok := InsertAuditEvent(User, owner, owner, ScanRequested, Success, id,
                               Ports(request.startPort, request.endPort));
      }
      if !ok {
        Rollback(begun);
        return INSERT_ERROR;
      }
      return CREATED;
    }

    method InsertBlockedScan(id: Id, owner: Subject, request: ScanRequest, code: FailureCode, rule: Option<Id>,
                             at: Time)
      returns (outcome: UpdateOutcome)
      modifies this
      ensures Committed(old(AsDatabase()), AsDatabase(), outcome,
                        InsertBlocked(old(AsDatabase()), id, owner, request, code, rule, at))
      ensures outcome == APPLIED ==>
        && id !in old(jobs)
        && jobs == old(jobs)[id := Job(owner, request, BLOCKED, rule, None, Some(code), None, at, at, None, Some(at),
                                       None, None)]
        && audit == old(audit) + [AuditEvent(id, ScanRequested, User, owner, owner, Success,
                                             Ports(request.startPort, request.endPort), rule),
                                  AuditEvent(id, ScanBlocked, Service, SERVICE_NAME, owner, Denied, Code(code), rule)]
        && results == old(results) && rules == old(rules)
    {
      hide RowChecks, ScannerIdUnique, EventAllowed;
      var begun := AsDatabase();
      if id in jobs {
        return ERROR;
      }
      ghost var j := BlockedJob(owner, request, code, rule, at);
      SameRow(begun, id, j);
      var ok := WriteJob(id, BlockedJob(owner, request, code, rule, at));
      if ok {
        ok := InsertAuditEvent(User, owner, owner, ScanRequested, Success, id,
                               Ports(request.startPort, request.endPort));
      }
      if ok {
        ok := InsertAuditEvent(Service, SERVICE_NAME, owner, ScanBlocked, Denied, id, Code(code));
      }
      if !ok {
        Rollback(begun);
        return ERROR;
      }
      assert begun.jobs[id := j][id := j] == begun.jobs[id := j];
      return APPLIED;
    }

    method ClaimScanDispatch(id: Id, leaseToken: Id, at: Time) returns (outcome: UpdateOutcome)
      modifies this
      ensures Committed(old(AsDatabase()), AsDatabase(), outcome,
                        ClaimDispatch(old(AsDatabase()), id, leaseToken, leaseSeconds, at))
      ensures outcome != UNCHANGED <==> (
        && id in old(jobs) && old(jobs)[id].status == QUEUED && old(jobs)[id].scannerId.None?
        && (old(jobs)[id].leaseExpires.None? || old(jobs)[id].leaseExpires.value <= at))
      ensures outcome == APPLIED ==>
        && jobs == old(jobs)[id := old(jobs)[id].(
                     leaseToken := Some(leaseToken), leaseExpires := Some(at + leaseSeconds), updatedAt := at)]
        && audit == old(audit) && results == old(results) && rules == old(rules)
    {
      hide RowChecks, ScannerIdUnique;
      if !(&& id in jobs && jobs[id].status == QUEUED && jobs[id].scannerId.None?
           && (jobs[id].leaseExpires.None? || jobs[id].leaseExpires.value <= at)) {
        return UNCHANGED;
      }
      var ok := WriteJob(id, jobs[id].(leaseToken := Some(leaseToken), leaseExpires := Some(at + leaseSeconds),
                                       updatedAt := at));
      return if ok then APPLIED else ERROR;
    }

    method AttachAllowedTargetToDispatch(id: Id, rule: Id, leaseToken: Id, at: Time) returns (outcome: UpdateOutcome)
      modifies this
      ensures Committed(old(AsDatabase()), AsDatabase(), outcome,
                        AttachAllowedTarget(old(AsDatabase()), id, rule, leaseToken, at))
      ensures outcome != UNCHANGED <==> (
        && id in old(jobs) && old(jobs)[id].status == QUEUED && old(jobs)[id].leaseToken == Some(leaseToken)
        && rule in old(rules) && old(rules)[rule].enabled
        && (old(rules)[rule].expiresAt.None? || at < old(rules)[rule].expiresAt.value))
      ensures outcome == APPLIED ==>
        && jobs == old(jobs)[id := old(jobs)[id].(allowedTarget := Some(rule), updatedAt := at)]
        && audit == old(audit) && results == old(results) && rules == old(rules)
    {
      hide RowChecks, ScannerIdUnique;
      if !(HoldsLease(AsDatabase(), id, leaseToken)
           && rule in rules && rules[rule].enabled && Unexpired(rules[rule], at)) {
        return UNCHANGED;
      }
      var ok := WriteJob(id, jobs[id].(allowedTarget := Some(rule), updatedAt := at));
      return if ok then APPLIED else ERROR;
    }

    // Rule fields never change except that enabled goes from true to false.
    method DisableAllowedTarget(id: Id) returns (changed: bool)
      modifies this
      ensures changed <==> id in old(rules) && old(rules)[id].enabled
      ensures rules == if changed then old(rules)[id := old(rules)[id].(enabled := false)] else old(rules)
      ensures jobs == old(jobs) && results == old(results) && audit == old(audit)
    {
      changed := id in rules && rules[id].enabled;
      if changed {
        rules := rules[id := rules[id].(enabled := false)];
      }
    }

    method MarkScanDispatched(id: Id, owner: Subject, scannerId: Id, leaseToken: Id, at: Time)
      returns (outcome: UpdateOutcome)
      modifies this
      ensures Committed(old(AsDatabase()), AsDatabase(), outcome,
                        MarkDispatched(old(AsDatabase()), id, owner, scannerId, leaseToken, at))
      ensures outcome != UNCHANGED <==> (
        && id in old(jobs) && old(jobs)[id].status == QUEUED && old(jobs)[id].leaseToken == Some(leaseToken))
      ensures outcome == APPLIED ==>
        && jobs == old(jobs)[id := old(jobs)[id].(
                     scannerId := Some(scannerId), status := RUNNING, startedAt := Some(at), leaseToken := None,
                     leaseExpires := None, updatedAt := at)]
        && audit == old(audit) + [AuditEvent(id, ScanStarted, Service, SERVICE_NAME, owner, Success, Empty,
                                             old(jobs)[id].allowedTarget)]
        && results == old(results) && rules == old(rules)
    {
      hide RowChecks, ScannerIdUnique, EventAllowed;
      var begun := AsDatabase();
      if !HoldsLease(AsDatabase(), id, leaseToken) {
        return UNCHANGED;
      }
      var ok := WriteJob(id, jobs[id].(scannerId := Some(scannerId), status := RUNNING, startedAt := Some(at),
                                       leaseToken := None, leaseExpires := None, updatedAt := at));
      if ok {
        ok := InsertAuditEvent(Service, SERVICE_NAME, owner, ScanStarted, Success, id, Empty);
      }
      if !ok {
        Rollback(begun);
        return ERROR;
      }
      return APPLIED;
    }

    method MarkScanDispatchFailed(id: Id, owner: Subject, code: FailureCode, blocked: bool, leaseToken: Id, at: Time)
      returns (outcome: UpdateOutcome)
      modifies this
      ensures Committed(old(AsDatabase()), AsDatabase(), outcome,
                        MarkDispatchFailed(old(AsDatabase()), id, owner, code, blocked, leaseToken, at))
      ensures outcome != UNCHANGED <==> (
        && id in old(jobs) && old(jobs)[id].status == QUEUED && old(jobs)[id].leaseToken == Some(leaseToken))
      ensures outcome == APPLIED ==>
        && jobs == old(jobs)[id := old(jobs)[id].(
                     status := if blocked then BLOCKED else FAILED, failure := Some(code), leaseToken := None,
                     leaseExpires := None, finishedAt := Some(at), updatedAt := at)]
        && audit == old(audit) + [if blocked
             then AuditEvent(id, ScanBlocked, Service, SERVICE_NAME, owner, Denied, Code(code),
                             old(jobs)[id].allowedTarget)
             else AuditEvent(id, ScanFailed, Service, SERVICE_NAME, owner, Failure, Code(code),
                             old(jobs)[id].allowedTarget)]
        && results == old(results) && rules == old(rules)
    {
      hide RowChecks, ScannerIdUnique, EventAllowed;
      var begun := AsDatabase();
      var status := if blocked then BLOCKED else FAILED;
      if !HoldsLease(AsDatabase(), id, leaseToken) {
        return UNCHANGED;
      }
      var ok := WriteJob(id, jobs[id].(status := status, failure := Some(code),
                                       leaseToken := None, leaseExpires := None,
                                       finishedAt := Some(at), updatedAt := at));
      if ok {
        ok := InsertAuditEvent(Service, SERVICE_NAME, owner, if blocked then ScanBlocked else ScanFailed,
                               if blocked then Denied else Failure, id, Code(code));
      }
      if !ok {
        Rollback(begun);
        return ERROR;
      }
      return APPLIED;
    }

    method MarkScanSynchronizationFailed(id: Id, owner: Subject, code: FailureCode, at: Time)
      returns (outcome: UpdateOutcome)
      modifies this
      ensures Committed(old(AsDatabase()), AsDatabase(), outcome,
                        MarkSynchronizationFailed(old(AsDatabase()), id, owner, code, at))
      ensures outcome != UNCHANGED <==>
        id in old(jobs) && (old(jobs)[id].status == QUEUED || old(jobs)[id].status == RUNNING)
      ensures outcome == APPLIED ==>
        && jobs == old(jobs)[id := old(jobs)[id].(
                     status := FAILED, failure := Some(code), finishedAt := Some(at), updatedAt := at)]
        && audit == old(audit) + [AuditEvent(id, ScanFailed, Service, SERVICE_NAME, owner, Failure, Code(code),
                                             old(jobs)[id].allowedTarget)]
        && results == old(results) && rules == old(rules)
    {
      hide RowChecks, ScannerIdUnique, EventAllowed;
      var begun := AsDatabase();
      if id !in jobs || !IsActive(jobs[id]) {
        return UNCHANGED;
      }
      var ok := WriteJob(id, jobs[id].(status := FAILED, failure := Some(code),
                                       finishedAt := Some(at), updatedAt := at));
      if ok {
        ok := InsertAuditEvent(Service, SERVICE_NAME, owner, ScanFailed, Failure, id, Code(code));
      }
      if !ok {
        Rollback(begun);
        return ERROR;
      }
      return APPLIED;
    }

    // The scanner's answer for a completed job: the rows one by one, then the
    // status, then the audit event, all or nothing.
    method SynchronizeCompletedScan(id: Id, owner: Subject, result: ScanResult, at: Time)
      returns (outcome: UpdateOutcome)
      modifies this
      ensures Committed(old(AsDatabase()), AsDatabase(), outcome,
                        SynchronizeCompleted(old(AsDatabase()), id, owner, result, at))
      ensures outcome != UNCHANGED <==> (
        && id in old(jobs) && old(jobs)[id].owner == owner
        && (old(jobs)[id].status == QUEUED || old(jobs)[id].status == RUNNING))
      ensures outcome == APPLIED ==>
        && jobs == old(jobs)[id := old(jobs)[id].(
                     status := COMPLETED, duration := Some(result.duration), finishedAt := Some(at), updatedAt := at)]
        && audit == old(audit) + [AuditEvent(id, ScanCompleted, Service, SERVICE_NAME, owner, Success,
                                             Counts(|result.results|, result.duration), old(jobs)[id].allowedTarget)]
        && id in results && results == old(results)[id := results[id]] && rules == old(rules)
      ensures outcome == APPLIED && ResultsOf(old(AsDatabase()), id) == map[] && Distinct(Endpoints(result.results)) ==>
        && id in results && |results[id]| == |result.results|
        && forall i :: 0 <= i < |result.results| ==>
             result.results[i].endpoint in results[id]
             && results[id][result.results[i].endpoint] == result.results[i].state
    {
      hide RowChecks, ScannerIdUnique, EventAllowed, InsertResults, ResultsOf;
      var begun := AsDatabase();
      if Distinct(Endpoints(result.results)) {
        InsertResultsKeys(result.results);
        InsertResultsStates(result.results);
        assert |InsertResults(map[], result.results)| == |InsertResults(map[], result.results).Keys|;
      }
      if id !in jobs || jobs[id].owner != owner || !IsActive(jobs[id]) {
        return UNCHANGED;
      }
      InsertRows(id, result.results);
      var ok := WriteJob(id, jobs[id].(status := COMPLETED, duration := Some(result.duration),
                                       finishedAt := Some(at), updatedAt := at));
      if ok {
        ok := InsertAuditEvent(Service, SERVICE_NAME, owner, ScanCompleted, Success, id,
                               Counts(|result.results|, result.duration));
      }
      if !ok {
        Rollback(begun);
        return ERROR;
      }
      return APPLIED;
    }

    // A completed answer without a result fails the cast before any statement.
    method SynchronizeScanJob(id: Id, owner: Subject, scanner: Store.ScanJob, at: Time) returns (outcome: UpdateOutcome)
      modifies this
      ensures scanner.status == Store.Accepted || scanner.status == Store.Running
        ==> outcome == UNCHANGED && AsDatabase() == old(AsDatabase())
      ensures scanner.status == Store.Failed
        ==> Committed(old(AsDatabase()), AsDatabase(), outcome,
                      MarkSynchronizationFailed(old(AsDatabase()), id, owner, ScannerFailed, at))
      ensures scanner.status == Store.Completed && scanner.result.Some?
        ==> Committed(old(AsDatabase()), AsDatabase(), outcome,
                      SynchronizeCompleted(old(AsDatabase()), id, owner, scanner.result.value, at))
      ensures scanner.status == Store.Completed && scanner.result.None?
        ==> outcome == ERROR && AsDatabase() == old(AsDatabase())
    {
      hide MarkSynchronizationFailed, SynchronizeCompleted;
      if scanner.status == Store.Accepted || scanner.status == Store.Running {
        return UNCHANGED;
      }
      if scanner.status == Store.Failed {
        outcome := MarkScanSynchronizationFailed(id, owner, ScannerFailed, at);
        return;
      }
      if scanner.result.None? {
        return ERROR;
      }
      outcome := SynchronizeCompletedScan(id, owner, scanner.result.value, at);
    }
  }

  lemma SameRow(db: Database, id: Id, j: Job)
    ensures RowAllowed(db.(jobs := db.jobs[id := j]), id, j) == RowAllowed(db, id, j)
  {
    var jobs := db.jobs[id := j];
    assert forall other :: other in db.jobs && other != id ==> other in jobs && jobs[other] == db.jobs[other];
    assert ScannerIdUnique(jobs, id, j) == ScannerIdUnique(db.jobs, id, j);
  }
}
