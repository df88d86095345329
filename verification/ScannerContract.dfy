// The contract between the two services: how a stored scanner job reads on the
// wire, and the checks the API makes before it believes a response.
module ScannerContract {
  import opened Collections
  import opened ScanTasks
  import Store = JobStore
  import Go = GoEngine
  import Records = ScanRecords

  // An empty error string and a nil result are left out of the JSON, so a
  // field is present exactly when it is non-empty.
  predicate ValidLifecycleShape(response: Store.ScanJob) {
    match response.status
    case Completed => response.result.Some? && response.error == ""
    case Failed => response.result.None?
    case _ => response.result.None? && response.error == ""
  }

  predicate ResponseMatchesJob(job: Records.Job, scannerId: Id, response: Store.ScanJob) {
    && response.id == scannerId
    && response.request == job.request
    && (response.result.Some? ==> response.result.value.request == job.request)
  }

  // Whatever a sound engine returns for an id passes both checks of a job that
  // asked for the same scan: the mismatch branch is dead, and the result cast
  // in synchronizeScanJob cannot fail.
  lemma EngineResponsesPass(e: Go.Engine, scannerId: Id, job: Records.Job)
    requires Go.EngineOk(e) && scannerId in e.store.jobs
    requires e.origin[scannerId].config.request == job.request
    ensures var response := e.store.jobs[scannerId];
      && ValidLifecycleShape(response)
      && ResponseMatchesJob(job, scannerId, response)
      && (response.status == Store.Completed ==>
            && response.result.Some?
            && CompleteOutput(response.result.value.results, e.origin[scannerId].config)
            && response.result.value.duration >= 0)
  {
    hide CompleteOutput;
    assert Go.JobOk(e, scannerId);
  }
}
