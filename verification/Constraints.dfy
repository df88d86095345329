// The constraints of the migrations as a condition on whole tables, told by
// status, column and pair of rows; and that a write is refused exactly when the
// tables after it would not meet it.
module Constraints {
  import opened Collections
  import opened ScanTasks
  import opened ScanRecords

  // A row by its status: what is set, what is not, and in which order.
  predicate RowStands(j: Job) {
    && 1 <= j.request.startPort <= j.request.endPort <= 65535
    && j.createdAt <= j.updatedAt
    && (j.startedAt.Some? ==> j.createdAt <= j.startedAt.value)
    && (j.finishedAt.Some? ==> j.createdAt <= j.finishedAt.value)
    && (j.startedAt.Some? && j.finishedAt.Some? ==> j.startedAt.value <= j.finishedAt.value)
    && (j.leaseToken.Some? <==> j.leaseExpires.Some?)
    && match j.status
       case QUEUED =>
         && j.startedAt.None? && j.finishedAt.None? && j.failure.None? && j.duration.None?
         && (j.leaseToken.Some? ==> j.scannerId.None?)
       case RUNNING =>
         && j.scannerId.Some? && j.startedAt.Some? && j.finishedAt.None? && j.failure.None? && j.duration.None?
         && j.leaseToken.None?
       case COMPLETED =>
         && j.scannerId.Some? && j.startedAt.Some? && j.finishedAt.Some? && j.failure.None? && j.leaseToken.None?
         && j.duration.Some? && j.duration.value >= 0
       case FAILED => j.finishedAt.Some? && j.failure.Some? && j.duration.None? && j.leaseToken.None?
       case BLOCKED =>
         && j.scannerId.None? && j.startedAt.None? && j.finishedAt.Some? && j.failure.Some? && j.duration.None?
         && j.leaseToken.None?
  }

  // An event, column by column.
  predicate EventStands(e: AuditEvent) {
    && (e.actorType == User <==> e.action == ScanRequested)
    && (e.actorType == User ==> e.actor == e.owner)
    && (e.outcome == Denied <==> e.action == ScanBlocked)
    && (e.outcome == Failure <==> e.action == ScanFailed)
    && (e.metadata.Ports? <==> e.action == ScanRequested)
    && (e.metadata.Empty? <==> e.action == ScanStarted)
    && (e.metadata.Counts? <==> e.action == ScanCompleted)
  }

  // All rows and events stand, two rows never name the same scanner job, rows
  // name rules that exist, and a job has at most one event for an action.
  ghost predicate TablesStand(db: Database) {
    && (forall id :: id in db.jobs ==> RowStands(db.jobs[id]))
    && (forall id :: id in db.jobs && db.jobs[id].allowedTarget.Some? ==> db.jobs[id].allowedTarget.value in db.rules)
    && (forall a, b :: a in db.jobs && b in db.jobs && a != b && db.jobs[a].scannerId.Some? ==>
          db.jobs[a].scannerId != db.jobs[b].scannerId)
    && (forall k :: 0 <= k < |db.audit| ==> EventStands(db.audit[k]))
    && (forall i, k :: 0 <= i < k < |db.audit| ==>
          db.audit[i].job != db.audit[k].job || db.audit[i].action != db.audit[k].action)
  }

  // The tables with one row written and at most one event appended.
  function Written(db: Database, id: Id, j: Job, event: Option<AuditEvent>): Database {
    Database(db.jobs[id := j], db.results,
             match event case Some(e) => db.audit + [e] case None => db.audit, db.rules)
  }

  lemma RowByStatus(j: Job)
    ensures RowChecks(j) <==> RowStands(j)
  {}

  lemma EventByColumn(e: AuditEvent)
    ensures EventShape(e) <==> EventStands(e)
  {}

  lemma EventFits(db: Database, id: Id, j: Job, e: AuditEvent)
    requires TablesStand(db) && TablesStand(Written(db, id, j, Some(e)))
    ensures EventAllowed(db.audit, e)
  {
    hide RowStands, EventShape, EventStands;
    EventByColumn(e);
    var audit := Written(db, id, j, Some(e)).audit;
    assert audit[|db.audit|] == e;
    forall k | 0 <= k < |db.audit| ensures db.audit[k].job != e.job || db.audit[k].action != e.action {
      assert audit[k] == db.audit[k];
    }
  }

  lemma RowFits(db: Database, id: Id, j: Job, event: Option<AuditEvent>)
    requires TablesStand(db) && TablesStand(Written(db, id, j, event))
    ensures RowChecks(j) && ScannerIdUnique(db.jobs, id, j)
    ensures j.allowedTarget.Some? ==> j.allowedTarget.value in db.rules
  {
    hide RowStands, RowChecks, EventStands;
    RowByStatus(j);
    var jobs := Written(db, id, j, event).jobs;
    assert id in jobs && jobs[id] == j;
    forall other | j.scannerId.Some? && other in db.jobs && other != id
      ensures db.jobs[other].scannerId != j.scannerId
    {
      assert other in jobs && jobs[other] == db.jobs[other];
    }
  }

  lemma AllowedStands(db: Database, id: Id, j: Job, event: Option<AuditEvent>)
    requires TablesStand(db) && RowChecks(j) && ScannerIdUnique(db.jobs, id, j)
    requires j.allowedTarget.Some? ==> j.allowedTarget.value in db.rules
    requires event.Some? ==> EventAllowed(db.audit, event.value)
    ensures TablesStand(Written(db, id, j, event))
  {
    hide RowStands, RowChecks, EventStands, EventShape;
    RowByStatus(j);
    if event.Some? {
      EventByColumn(event.value);
    }
    var after := Written(db, id, j, event);
    forall a, b | a in after.jobs && b in after.jobs && a != b && after.jobs[a].scannerId.Some?
      ensures after.jobs[a].scannerId != after.jobs[b].scannerId
    {
      assert a != id ==> after.jobs[a] == db.jobs[a];
      assert b != id ==> after.jobs[b] == db.jobs[b];
    }
  }

  // Of tables that stand, a write makes tables that stand; and it is refused
  // only when the tables it would make do not.
  lemma RefusedExactlyWhen(db: Database, id: Id, j: Job, event: Option<AuditEvent>)
    requires TablesStand(db)
    ensures Put(db, id, j, event) ==
      if TablesStand(Written(db, id, j, event)) then Applied(Written(db, id, j, event)) else Refused
  {
    hide TablesStand, RowChecks, ScannerIdUnique, EventAllowed;
    if TablesStand(Written(db, id, j, event)) {
      RowFits(db, id, j, event);
      if event.Some? {
        EventFits(db, id, j, event.value);
      }
    } else if Put(db, id, j, event).Applied? {
      AllowedStands(db, id, j, event);
    }
  }
}
