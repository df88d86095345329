// The scanner process as a whole: its job store, the one goroutine per
// admitted job that createScanHandler starts, and what a restart forgets.
module GoEngine {
  import opened Collections
  import opened ScanTasks
  import opened JobStore
  import Pool = WorkerPool

  // runScan has been started; `running` once it has marked its job running.
  datatype Worker = Worker(running: bool, config: ScanConfig)

  // History, never read by the engine: with which key and configuration each
  // job id was ever admitted. It survives restarts.
  datatype Origin = Origin(key: Option<Id>, config: ScanConfig)

  datatype Engine = Engine(store: Store, workers: map<Id, Worker>, origin: map<Id, Origin>)

  datatype Outcome = Succeeded(result: ScanResult) | Errored(message: string)

  function NewEngine(maxActive: nat, maxRetained: nat): Engine {
    Engine(NewStore(maxActive, maxRetained), map[], map[])
  }

  // The admitting end of createScanHandler: the goroutine is started only for
  // a job that was really created.
  function Receive(e: Engine, id: Id, config: ScanConfig, key: Option<Id>, now: Time): (Engine, Admission) {
    var (store, answer) := Admit(e.store, NewScanJob(id, config.request, now), key);
    if answer.Admitted? && answer.created then
      (Engine(store, e.workers[id := Worker(false, config)], e.origin[id := Origin(key, config)]), answer)
    else
      (e.(store := store), answer)
  }

  function Start(e: Engine, id: Id, now: Time): Engine
    requires id in e.workers
  {
    e.(store := MarkRunning(e.store, id, now), workers := e.workers[id := e.workers[id].(running := true)])
  }

  function Finish(e: Engine, id: Id, outcome: Outcome, now: Time): Engine {
    e.(store := (match outcome
                 case Succeeded(result) => MarkCompleted(e.store, id, result, now)
                 case Errored(message) => MarkFailed(e.store, id, message, now)),
       workers := e.workers - {id})
  }

  function Restart(e: Engine): Engine {
    e.(store := NewStore(e.store.maxActive, e.store.maxRetained), workers := map[])
  }

  datatype Event =
    | Receiving(id: Id, config: ScanConfig, key: Option<Id>, now: Time)
    | Starting(id: Id, now: Time)
    | Finishing(id: Id, outcome: Outcome, now: Time)
    | Restarting

  // What the scanner can hand to markCompleted.
  ghost predicate ScannerOutput(outcome: Outcome, config: ScanConfig) {
    outcome.Succeeded? ==>
      && outcome.result.request == config.request
      && CompleteOutput(outcome.result.results, config)
      && outcome.result.duration >= 0
  }

  // The worker pool hands over nothing else, whatever its schedule was and
  // whatever the network answered.
  lemma PoolGivesScannerOutput(config: ScanConfig, states: seq<PortState>, cap: nat, steps: seq<Pool.Step>,
                               done: Pool.Pool, duration: nat)
    requires |states| == |Tasks(config.pins, config.request)|
    requires Pool.Schedule(Pool.WorkOf(config, states, cap), Pool.Start(), steps, done)
    requires done.launcher == Pool.Returned
    ensures ScannerOutput(Succeeded(ScanResult(config.request, done.results, duration)), config)
  {
    Pool.ScanOutputIsComplete(config, states, cap, steps, done);
  }

  ghost predicate Possible(e: Engine, event: Event) {
    match event
    case Receiving(id, config, key, now) => id !in e.origin
    case Starting(id, now) => id in e.workers && !e.workers[id].running
    case Finishing(id, outcome, now) =>
      id in e.workers && e.workers[id].running && ScannerOutput(outcome, e.workers[id].config)
    case Restarting => true
  }

  function Handle(e: Engine, event: Event): Engine
    requires event.Starting? ==> event.id in e.workers
  {
    match event
    case Receiving(id, config, key, now) => Receive(e, id, config, key, now).0
    case Starting(id, now) => Start(e, id, now)
    case Finishing(id, outcome, now) => Finish(e, id, outcome, now)
    case Restarting => Restart(e)
  }

  // --------------------------------------------------------------- invariant

  // A job's fields fit its status; this is what crosses the wire.
  ghost predicate WellShaped(job: ScanJob, config: ScanConfig) {
    && job.request == config.request
    && (job.status == Completed ==>
          && job.result.Some? && job.error == ""
          && ScannerOutput(Succeeded(job.result.value), config))
    && (job.status == Failed ==> job.result.None?)
    && (Active(job) ==> job.result.None? && job.error == "")
  }

  ghost predicate JobOk(e: Engine, id: Id)
    requires id in e.store.jobs
  {
    id in e.origin && e.store.jobs[id].id == id && WellShaped(e.store.jobs[id], e.origin[id].config)
  }

  ghost predicate JobsOk(e: Engine) {
    e.store.jobs.Keys <= e.origin.Keys && (forall id :: id in e.store.jobs ==> JobOk(e, id))
  }

  // Active jobs and live goroutines are the same thing.
  ghost predicate WorkersOk(e: Engine) {
    && e.workers.Keys == ActiveIds(e.store.jobs)
    && (forall id :: id in e.workers && id in e.origin ==>
          && (e.workers[id].running <==> id in e.store.jobs && e.store.jobs[id].status == Running)
          && e.workers[id].config == e.origin[id].config)
  }

  // Keys and retained keyed jobs are in one-to-one correspondence.
  ghost predicate KeysOk(e: Engine) {
    && (forall k :: k in e.store.keys ==>
          e.store.keys[k] in e.store.jobs && e.store.keys[k] in e.origin
          && e.origin[e.store.keys[k]].key == Some(k))
    && (forall id :: id in e.store.jobs && id in e.origin && e.origin[id].key.Some? ==>
          e.origin[id].key.value in e.store.keys && e.store.keys[e.origin[id].key.value] == id)
  }

  ghost predicate LimitsOk(e: Engine) {
    && |ActiveIds(e.store.jobs)| <= e.store.maxActive
    && |TerminalIds(e.store.jobs)| <= e.store.maxRetained
  }

  ghost predicate EngineOk(e: Engine) {
    JobsOk(e) && WorkersOk(e) && KeysOk(e) && LimitsOk(e)
  }

  // What no step undoes: job ids keep their origin, an evicted or forgotten id
  // stays gone, a job only moves forward and a finished one is frozen.
  predicate StatusReaches(a: JobStatus, b: JobStatus) {
    a == b || a == Accepted || (a == Running && (b == Completed || b == Failed))
  }

  ghost predicate JobAdvances(a: Engine, b: Engine, id: Id)
    requires id in a.origin
  {
    && id in b.origin && b.origin[id] == a.origin[id]
    && (id in b.store.jobs ==>
          && id in a.store.jobs
          && StatusReaches(a.store.jobs[id].status, b.store.jobs[id].status)
          && (Terminal(a.store.jobs[id]) ==> b.store.jobs[id] == a.store.jobs[id]))
  }

  ghost predicate Advances(a: Engine, b: Engine) {
    && a.store.maxActive == b.store.maxActive && a.store.maxRetained == b.store.maxRetained
    && (forall id :: id in a.origin ==> JobAdvances(a, b, id))
  }

  function Created(e: Engine, id: Id, config: ScanConfig, key: Option<Id>, now: Time): Engine {
    Engine(
      e.store.(jobs := e.store.jobs[id := NewScanJob(id, config.request, now)],
               keys := if key.Some? then e.store.keys[key.value := id] else e.store.keys),
      e.workers[id := Worker(false, config)],
      e.origin[id := Origin(key, config)])
  }

  // A key that is known belongs to a retained job: the retry is answered with
  // that job, starts no goroutine and changes nothing. The branch that forgets
  // a stale key is never entered.
  lemma ReceiveKnown(e: Engine, id: Id, config: ScanConfig, key: Id, now: Time)
    requires KeysOk(e) && key in e.store.keys
    ensures var (f, answer) := Receive(e, id, config, Some(key), now);
      var holder := e.store.keys[key];
      && f == e
      && holder in e.store.jobs
      && answer == (if e.store.jobs[holder].request == config.request
                    then Admitted(e.store.jobs[holder], false) else Conflict)
  {}

  // Any other request creates a job exactly when fewer goroutines are alive
  // than the limit allows.
  lemma ReceiveNew(e: Engine, id: Id, config: ScanConfig, key: Option<Id>, now: Time)
    requires WorkersOk(e) && (key.Some? ==> key.value !in e.store.keys)
    ensures Receive(e, id, config, key, now) ==
      if |e.workers.Keys| < e.store.maxActive
      then (Created(e, id, config, key, now), Admitted(NewScanJob(id, config.request, now), true))
      else (e, LimitReached)
    ensures |e.workers.Keys| < e.store.maxActive ==>
      var f := Receive(e, id, config, key, now).0;
      && id in f.store.jobs && f.store.jobs[id] == ScanJob(id, Accepted, config.request, now, now, None, "")
      && id in f.workers && f.workers[id] == Worker(false, config)
      && id in f.origin && f.origin[id] == Origin(key, config)
      && (key.Some? ==> key.value in f.store.keys && f.store.keys[key.value] == id)
  {
    if key.Some? {
      assert e.store.keys - {key.value} == e.store.keys;
    }
  }

  lemma CreateKeepsJobs(e: Engine, id: Id, config: ScanConfig, key: Option<Id>, now: Time)
    requires JobsOk(e) && id !in e.origin
    ensures JobsOk(Created(e, id, config, key, now)) && Advances(e, Created(e, id, config, key, now))
  {
    hide ScannerOutput;
    var f := Created(e, id, config, key, now);
    forall j | j in f.store.jobs ensures JobOk(f, j) {
      assert j == id || JobOk(e, j);
    }
    forall j | j in e.origin ensures JobAdvances(e, f, j) {}
  }

  lemma CreateKeepsLimits(e: Engine, id: Id, config: ScanConfig, key: Option<Id>, now: Time)
    requires LimitsOk(e) && |ActiveIds(e.store.jobs)| < e.store.maxActive && id !in e.store.jobs
    ensures LimitsOk(Created(e, id, config, key, now))
  {
    var f := Created(e, id, config, key, now);
    assert ActiveIds(f.store.jobs) == ActiveIds(e.store.jobs) + {id};
    assert TerminalIds(f.store.jobs) == TerminalIds(e.store.jobs);
  }

  lemma CreateKeepsKeys(e: Engine, id: Id, config: ScanConfig, key: Option<Id>, now: Time)
    requires e.store.jobs.Keys <= e.origin.Keys && KeysOk(e) && id !in e.origin
    requires key.Some? ==> key.value !in e.store.keys
    ensures KeysOk(Created(e, id, config, key, now))
  {
    var f := Created(e, id, config, key, now);
    forall other | other in f.store.jobs && other in f.origin && f.origin[other].key.Some?
      ensures f.origin[other].key.value in f.store.keys && f.store.keys[f.origin[other].key.value] == other
    {
      if other != id {
        assert e.origin[other].key.value in e.store.keys;
      }
    }
  }

  lemma CreateKeepsWorkers(e: Engine, id: Id, config: ScanConfig, key: Option<Id>, now: Time)
    requires WorkersOk(e) && id !in e.store.jobs
    ensures WorkersOk(Created(e, id, config, key, now))
  {
    var f := Created(e, id, config, key, now);
    assert ActiveIds(f.store.jobs) == ActiveIds(e.store.jobs) + {id};
    assert f.workers.Keys == e.workers.Keys + {id};
    forall w | w in f.workers && w in f.origin
      ensures (f.workers[w].running <==> w in f.store.jobs && f.store.jobs[w].status == Running)
      ensures f.workers[w].config == f.origin[w].config
    {
      assert w == id || w in e.workers;
    }
  }

  lemma ReceivePreserves(e: Engine, id: Id, config: ScanConfig, key: Option<Id>, now: Time)
    requires EngineOk(e) && id !in e.origin
    ensures EngineOk(Receive(e, id, config, key, now).0)
    ensures Advances(e, Receive(e, id, config, key, now).0)
  {
    hide Receive, Created, JobOk, JobAdvances;
    AdvancesReflexive(e);
    if key.Some? && key.value in e.store.keys {
      ReceiveKnown(e, id, config, key.value, now);
    } else {
      ReceiveNew(e, id, config, key, now);
      if |e.workers.Keys| < e.store.maxActive {
        CreateKeepsJobs(e, id, config, key, now);
        CreateKeepsLimits(e, id, config, key, now);
        CreateKeepsKeys(e, id, config, key, now);
        CreateKeepsWorkers(e, id, config, key, now);
      }
    }
  }

  lemma StartMeaning(e: Engine, id: Id, now: Time)
    requires LimitsOk(e) && id in e.workers && id in e.store.jobs && Active(e.store.jobs[id])
    ensures Start(e, id, now) == e.(
      store := e.store.(jobs := e.store.jobs[id := e.store.jobs[id].(status := Running, updatedAt := now)]),
      workers := e.workers[id := e.workers[id].(running := true)])
  {
    MarkRunningInPlace(e.store, id, now);
  }

  // Replacing a stored job by one of the same id and configuration.
  function Rewritten(e: Engine, job: ScanJob): Engine {
    e.(store := e.store.(jobs := e.store.jobs[job.id := job]))
  }

  lemma RewriteKeepsJobs(e: Engine, job: ScanJob)
    requires JobsOk(e) && job.id in e.store.jobs && WellShaped(job, e.origin[job.id].config)
    requires StatusReaches(e.store.jobs[job.id].status, job.status) && Active(e.store.jobs[job.id])
    ensures JobsOk(Rewritten(e, job)) && Advances(e, Rewritten(e, job))
  {
    hide WellShaped;
    var f := Rewritten(e, job);
    forall j | j in f.store.jobs ensures JobOk(f, j) {
      assert JobOk(e, j);
    }
    forall j | j in e.origin ensures JobAdvances(e, f, j) {}
  }

  lemma RewriteKeepsKeys(e: Engine, job: ScanJob)
    requires KeysOk(e) && job.id in e.store.jobs
    ensures KeysOk(Rewritten(e, job))
  {}

  lemma StartKeepsWorkersAndLimits(e: Engine, id: Id, now: Time)
    requires WorkersOk(e) && LimitsOk(e) && id in e.workers && id in e.origin && id in e.store.jobs
    ensures WorkersOk(Start(e, id, now)) && LimitsOk(Start(e, id, now))
  {
    assert id in ActiveIds(e.store.jobs);
    StartMeaning(e, id, now);
    var f := Start(e, id, now);
    assert ActiveIds(f.store.jobs) == ActiveIds(e.store.jobs);
    assert TerminalIds(f.store.jobs) == TerminalIds(e.store.jobs);
  }

  lemma StartPreserves(e: Engine, id: Id, now: Time)
    requires EngineOk(e) && id in e.workers && !e.workers[id].running
    ensures EngineOk(Start(e, id, now)) && Advances(e, Start(e, id, now))
    ensures Start(e, id, now).store.jobs.Keys == e.store.jobs.Keys
  {
    hide CompleteOutput, Start, KeysOk;
    assert id in ActiveIds(e.store.jobs) && JobOk(e, id);
    StartMeaning(e, id, now);
    StartKeepsWorkersAndLimits(e, id, now);
    var started := e.store.jobs[id].(status := Running, updatedAt := now);
    RewriteKeepsJobs(e, started);
    RewriteKeepsKeys(e, started);
    ModuloWorkers(Rewritten(e, started), Start(e, id, now));
  }

  // Jobs, keys and limits do not depend on the goroutines.
  lemma ModuloWorkers(e: Engine, f: Engine)
    requires f.store == e.store && f.origin == e.origin
    ensures JobsOk(e) == JobsOk(f) && KeysOk(e) == KeysOk(f) && LimitsOk(e) == LimitsOk(f)
    ensures forall a :: Advances(a, e) == Advances(a, f)
  {
    assert forall j :: j in e.store.jobs ==> JobOk(e, j) == JobOk(f, j);
    forall a ensures Advances(a, e) == Advances(a, f) {
      assert forall j :: j in a.origin ==> JobAdvances(a, e, j) == JobAdvances(a, f, j);
    }
  }

  function FinishedJob(job: ScanJob, outcome: Outcome, now: Time): ScanJob {
    match outcome
    case Succeeded(result) => job.(status := Completed, result := Some(result), error := "", updatedAt := now)
    case Errored(message) => job.(status := Failed, error := message, result := None, updatedAt := now)
  }

  // Finishing is: write the terminal job, drop its goroutine, retain.
  lemma FinishMeaning(e: Engine, id: Id, outcome: Outcome, now: Time)
    requires id in e.store.jobs
    ensures var changed := e.store.(jobs := e.store.jobs[id := FinishedJob(e.store.jobs[id], outcome, now)]);
      Finish(e, id, outcome, now) == e.(store := Retain(changed), workers := e.workers - {id})
  {}

  lemma RetainKeepsJobs(e: Engine)
    requires JobsOk(e) && |ActiveIds(e.store.jobs)| <= e.store.maxActive
    ensures var f := e.(store := Retain(e.store)); JobsOk(f) && LimitsOk(f) && Advances(e, f)
  {
    hide WellShaped;
    RetentionByOrder(e.store);
  }

  lemma RetainKeepsKeys(e: Engine)
    requires e.store.jobs.Keys <= e.origin.Keys && KeysOk(e)
    ensures KeysOk(e.(store := Retain(e.store)))
  {
    RetentionByOrder(e.store);
    var f := e.(store := Retain(e.store));
    forall k | k in f.store.keys ensures f.store.keys[k] in f.store.jobs {
      assert e.store.keys[k] in e.store.jobs;
    }
    forall id | id in f.store.jobs && id in f.origin && f.origin[id].key.Some?
      ensures f.origin[id].key.value in f.store.keys && f.store.keys[f.origin[id].key.value] == id
    {
      assert e.store.keys[e.origin[id].key.value] == id;
    }
  }

  lemma FinishedIsShaped(job: ScanJob, outcome: Outcome, config: ScanConfig, now: Time)
    requires WellShaped(job, config) && Active(job) && ScannerOutput(outcome, config)
    ensures var done := FinishedJob(job, outcome, now);
      WellShaped(done, config) && Terminal(done) && done.id == job.id
  {
    hide CompleteOutput;
  }

  lemma OneLessActive(e: Engine, done: ScanJob)
    requires done.id in e.store.jobs && Active(e.store.jobs[done.id]) && Terminal(done)
    ensures ActiveIds(Rewritten(e, done).store.jobs) == ActiveIds(e.store.jobs) - {done.id}
    ensures |ActiveIds(Rewritten(e, done).store.jobs)| <= |ActiveIds(e.store.jobs)|
  {
    assert done.id in ActiveIds(e.store.jobs);
    assert ActiveIds(Rewritten(e, done).store.jobs) == ActiveIds(e.store.jobs) - {done.id};
  }

  // Who is at work is stored, active and was admitted with the configuration
  // it works on.
  lemma WorkerJob(e: Engine, id: Id)
    requires EngineOk(e) && id in e.workers
    ensures id in e.store.jobs && Active(e.store.jobs[id]) && e.store.jobs[id].id == id && id in e.origin
    ensures e.workers[id].config == e.origin[id].config && WellShaped(e.store.jobs[id], e.origin[id].config)
  {
    hide KeysOk, LimitsOk, WellShaped;
    assert id in ActiveIds(e.store.jobs) && JobOk(e, id);
  }

  lemma FinishRewrites(e: Engine, id: Id, outcome: Outcome, now: Time)
    requires EngineOk(e) && Possible(e, Finishing(id, outcome, now))
    ensures id in e.store.jobs
    ensures var mid := Rewritten(e, FinishedJob(e.store.jobs[id], outcome, now));
      JobsOk(mid) && Advances(e, mid) && |ActiveIds(mid.store.jobs)| <= mid.store.maxActive
  {
    hide KeysOk, WorkersOk, WellShaped, ScannerOutput, ActiveIds;
    WorkerJob(e, id);
    var done := FinishedJob(e.store.jobs[id], outcome, now);
    FinishedIsShaped(e.store.jobs[id], outcome, e.origin[id].config, now);
    RewriteKeepsJobs(e, done);
    OneLessActive(e, done);
  }

  lemma FinishPreserves(e: Engine, id: Id, outcome: Outcome, now: Time)
    requires EngineOk(e) && Possible(e, Finishing(id, outcome, now))
    ensures EngineOk(Finish(e, id, outcome, now)) && Advances(e, Finish(e, id, outcome, now))
  {
    hide KeysOk, JobsOk, LimitsOk, WorkersOk, Advances, Possible, Retain, Finish;
    FinishRewrites(e, id, outcome, now);
    FinishMeaning(e, id, outcome, now);
    var done := FinishedJob(e.store.jobs[id], outcome, now);
    var mid := Rewritten(e, done);
    JobsHaveOwnIds(e);
    RewriteKeepsKeys(e, done);
    RetainKeepsJobs(mid);
    JobsHaveOrigins(mid);
    RetainKeepsKeys(mid);
    var retained, f := mid.(store := Retain(mid.store)), Finish(e, id, outcome, now);
    AdvancesTransitive(e, mid, retained);
    ModuloWorkers(retained, f);
    FinishKeepsWorkers(e, done);
  }

  lemma JobsHaveOwnIds(e: Engine)
    requires JobsOk(e)
    ensures forall id :: id in e.store.jobs ==> e.store.jobs[id].id == id
  {
    forall id | id in e.store.jobs ensures e.store.jobs[id].id == id {
      assert JobOk(e, id);
    }
  }

  lemma JobsHaveOrigins(e: Engine)
    requires JobsOk(e)
    ensures e.store.jobs.Keys <= e.origin.Keys
  {}

  lemma FinishKeepsWorkers(e: Engine, done: ScanJob)
    requires WorkersOk(e) && done.id in e.store.jobs && Terminal(done)
    ensures WorkersOk(e.(store := Retain(Rewritten(e, done).store), workers := e.workers - {done.id}))
  {
    hide Expired;
    var mid := Rewritten(e, done);
    var f := e.(store := Retain(mid.store), workers := e.workers - {done.id});
    RetentionByOrder(mid.store);
    assert ActiveIds(f.store.jobs) == ActiveIds(e.store.jobs) - {done.id};
    assert f.workers.Keys == e.workers.Keys - {done.id};
    forall w | w in f.workers ensures w in f.store.jobs && f.store.jobs[w] == e.store.jobs[w] {
      assert w in ActiveIds(f.store.jobs);
    }
  }

  lemma RestartPreserves(e: Engine)
    requires EngineOk(e)
    ensures EngineOk(Restart(e)) && Advances(e, Restart(e))
  {
    var f := Restart(e);
    assert ActiveIds(f.store.jobs) == {} && TerminalIds(f.store.jobs) == {};
  }

  lemma HandlePreserves(e: Engine, event: Event)
    requires EngineOk(e) && Possible(e, event)
    ensures EngineOk(Handle(e, event)) && Advances(e, Handle(e, event))
  {
    match event
    case Receiving(id, config, key, now) => ReceivePreserves(e, id, config, key, now);
    case Starting(id, now) => StartPreserves(e, id, now);
    case Finishing(id, outcome, now) => FinishPreserves(e, id, outcome, now);
    case Restarting => RestartPreserves(e);
  }

  // -------------------------------------------------------------- whole runs

  ghost predicate Run(states: seq<Engine>, events: seq<Event>) {
    && |states| == |events| + 1
    && (forall i :: 0 <= i < |events| ==>
          Possible(states[i], events[i]) && states[i + 1] == Handle(states[i], events[i]))
  }

  lemma {:induction false} RunKeepsEngineOk(states: seq<Engine>, events: seq<Event>, n: nat)
    requires Run(states, events) && EngineOk(states[0]) && n <= |events|
    ensures EngineOk(states[n])
  {
    if n > 0 {
      RunKeepsEngineOk(states, events, n - 1);
      HandlePreserves(states[n - 1], events[n - 1]);
    }
  }

  lemma AdvancesTransitive(a: Engine, b: Engine, c: Engine)
    requires Advances(a, b) && Advances(b, c)
    ensures Advances(a, c)
  {
    forall id | id in a.origin ensures JobAdvances(a, c, id) {
      assert JobAdvances(a, b, id) && JobAdvances(b, c, id);
    }
  }

  lemma AdvancesReflexive(e: Engine)
    ensures Advances(e, e)
  {}

  lemma {:induction false} RunAdvances(states: seq<Engine>, events: seq<Event>, i: nat, n: nat)
    requires Run(states, events) && EngineOk(states[0]) && i <= n <= |events|
    ensures Advances(states[i], states[n])
  {
    hide Advances, EngineOk, Handle, Possible;
    RunKeepsEngineOk(states, events, i);
    if n == i {
      AdvancesReflexive(states[i]);
    } else {
      RunAdvances(states, events, i, n - 1);
      RunKeepsEngineOk(states, events, n - 1);
      HandlePreserves(states[n - 1], events[n - 1]);
      AdvancesTransitive(states[i], states[n - 1], states[n]);
    }
  }

  function WithStatus(jobs: map<Id, ScanJob>, status: JobStatus): (r: set<Id>)
    ensures forall id :: id in r <==> id in jobs && jobs[id].status == status
  {
    set id | id in jobs && jobs[id].status == status
  }

  // Over every run of a fresh engine: the limits hold at every moment, a live
  // goroutine's job is always stored and active, every key points to a stored
  // job, and no two retained jobs share a key.
  lemma EngineSafety(states: seq<Engine>, events: seq<Event>, maxActive: nat, maxRetained: nat, n: nat)
    requires Run(states, events) && states[0] == NewEngine(maxActive, maxRetained) && n <= |events|
    ensures EngineOk(states[n])
    ensures var jobs := states[n].store.jobs;
      |WithStatus(jobs, Accepted) + WithStatus(jobs, Running)| <= maxActive
    ensures var jobs := states[n].store.jobs;
      |WithStatus(jobs, Completed) + WithStatus(jobs, JobStatus.Failed)| <= maxRetained
    ensures forall id :: id in states[n].workers <==>
      && id in states[n].store.jobs
      && (states[n].store.jobs[id].status == Accepted || states[n].store.jobs[id].status == Running)
    ensures forall k :: k in states[n].store.keys ==> states[n].store.keys[k] in states[n].store.jobs
    ensures states[n].store.jobs.Keys <= states[n].origin.Keys
    ensures forall a, b :: a in states[n].store.jobs && b in states[n].store.jobs
              && states[n].origin[a].key == states[n].origin[b].key && states[n].origin[a].key.Some?
              ==> a == b
  {
    hide JobOk, JobAdvances, Possible, Handle;
    NewEngineOk(maxActive, maxRetained);
    RunKeepsEngineOk(states, events, n);
    RunAdvances(states, events, 0, n);
    var jobs := states[n].store.jobs;
    assert WithStatus(jobs, Accepted) + WithStatus(jobs, Running) == ActiveIds(jobs);
    assert WithStatus(jobs, Completed) + WithStatus(jobs, JobStatus.Failed) == TerminalIds(jobs);
    assert forall id :: id in states[n].workers.Keys <==> id in ActiveIds(jobs);
  }

  // And between any two moments of it: a job stored at both has only moved
  // forward and, once finished, not changed at all, and a job once gone never
  // comes back.
  lemma EngineHistory(states: seq<Engine>, events: seq<Event>, maxActive: nat, maxRetained: nat, i: nat, n: nat)
    requires Run(states, events) && states[0] == NewEngine(maxActive, maxRetained) && i <= n <= |events|
    ensures forall id :: id in states[i].store.jobs && id in states[n].store.jobs ==>
              var a, b := states[i].store.jobs[id], states[n].store.jobs[id];
              && (b.status == a.status || a.status == Accepted
                  || (a.status == Running && (b.status == Completed || b.status == Failed)))
              && (a.status == Completed || a.status == Failed ==> b == a)
    ensures forall id :: id in states[i].origin && id !in states[i].store.jobs ==> id !in states[n].store.jobs
  {
    hide WellShaped, Possible, Handle, KeysOk, WorkersOk, LimitsOk;
    NewEngineOk(maxActive, maxRetained);
    RunKeepsEngineOk(states, events, i);
    RunAdvances(states, events, i, n);
    forall id | id in states[i].origin ensures JobAdvances(states[i], states[n], id) {}
  }

  lemma NewEngineOk(maxActive: nat, maxRetained: nat)
    ensures EngineOk(NewEngine(maxActive, maxRetained))
  {
    var start := NewEngine(maxActive, maxRetained);
    assert ActiveIds(start.store.jobs) == {} && TerminalIds(start.store.jobs) == {};
  }
}
