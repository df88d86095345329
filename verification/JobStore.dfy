// scanner-engine/cmd/server/jobs.go and runScan in scans.go, on values: the
// admission decision, the status updates and the retention rule.
module JobStore {
  import opened Collections
  import opened ScanTasks

  datatype JobStatus = Accepted | Running | Completed | Failed

  datatype ScanJob = ScanJob(
    id: Id,
    status: JobStatus,
    request: ScanRequest,
    createdAt: Time,
    updatedAt: Time,
    result: Option<ScanResult>,
    error: string)

  // `keys` is the idempotency map; the empty header value is None.
  datatype Store = Store(jobs: map<Id, ScanJob>, keys: map<Id, Id>, maxActive: nat, maxRetained: nat)

  datatype Admission = Admitted(job: ScanJob, created: bool) | Conflict | LimitReached

  predicate Active(job: ScanJob) {
    job.status == Accepted || job.status == Running
  }

  predicate Terminal(job: ScanJob) {
    job.status == Completed || job.status == Failed
  }

  function ActiveIds(jobs: map<Id, ScanJob>): set<Id> {
    set id | id in jobs && Active(jobs[id])
  }

  function TerminalIds(jobs: map<Id, ScanJob>): set<Id> {
    set id | id in jobs && Terminal(jobs[id])
  }

  function NewStore(maxActive: nat, maxRetained: nat): Store {
    Store(map[], map[], maxActive, maxRetained)
  }

  function NewScanJob(id: Id, request: ScanRequest, now: Time): ScanJob {
    ScanJob(id, Accepted, request, now, now, None, "")
  }

  // A key whose job is gone is forgotten before the limit is looked at, so it
  // stays forgotten even when the limit then refuses the request.
  function Admit(s: Store, job: ScanJob, key: Option<Id>): (Store, Admission) {
    if key.Some? && key.value in s.keys && s.keys[key.value] in s.jobs then
      var existing := s.jobs[s.keys[key.value]];
      if existing.request != job.request then (s, Conflict) else (s, Admitted(existing, false))
    else
      var keys := if key.Some? then s.keys - {key.value} else s.keys;
      if |ActiveIds(s.jobs)| >= s.maxActive then
        (s.(keys := keys), LimitReached)
      else
        (s.(jobs := s.jobs[job.id := job],
            keys := if key.Some? then keys[key.value := job.id] else keys),
         Admitted(job, true))
  }

  // The order by which terminal jobs are sorted: last update, ties by id.
  predicate Older(jobs: map<Id, ScanJob>, a: Id, b: Id)
    requires a in jobs && b in jobs
  {
    jobs[a].updatedAt < jobs[b].updatedAt || (jobs[a].updatedAt == jobs[b].updatedAt && a < b)
  }

  function NewerIn(jobs: map<Id, ScanJob>, ids: set<Id>, id: Id): set<Id>
    requires ids <= jobs.Keys && id in jobs
  {
    set k | k in ids && Older(jobs, id, k)
  }

  // A job is expired when enough terminal jobs are newer. This says which jobs
  // go without mentioning any iteration order.
  predicate Expired(s: Store, id: Id)
    requires id in s.jobs
  {
    Terminal(s.jobs[id]) && |NewerIn(s.jobs, TerminalIds(s.jobs), id)| >= s.maxRetained
  }

  function Retain(s: Store): Store {
    s.(jobs := map id | id in s.jobs && !Expired(s, id) :: s.jobs[id],
       keys := map k | k in s.keys && !(s.keys[k] in s.jobs && Expired(s, s.keys[k])) :: s.keys[k])
  }

  function Update(s: Store, id: Id, job: ScanJob): Store {
    if id in s.jobs then Retain(s.(jobs := s.jobs[id := job])) else s
  }

  function MarkRunning(s: Store, id: Id, now: Time): Store {
    if id !in s.jobs then s
    else Update(s, id, s.jobs[id].(status := Running, updatedAt := now))
  }

  function MarkCompleted(s: Store, id: Id, result: ScanResult, now: Time): Store {
    if id !in s.jobs then s
    else Update(s, id, s.jobs[id].(status := Completed, result := Some(result), error := "", updatedAt := now))
  }

  function MarkFailed(s: Store, id: Id, error: string, now: Time): Store {
    if id !in s.jobs then s
    else Update(s, id, s.jobs[id].(status := Failed, error := error, result := None, updatedAt := now))
  }

  // ---------------------------------------------------------------- retention

  lemma {:induction false} OldestExists(jobs: map<Id, ScanJob>, ids: set<Id>) returns (oldest: Id)
    requires ids <= jobs.Keys && ids != {}
    ensures oldest in ids && NewerIn(jobs, ids, oldest) == ids - {oldest}
  {
    var x :| x in ids;
    if ids == {x} {
      oldest := x;
    } else {
      var rest := OldestExists(jobs, ids - {x});
      oldest := if Older(jobs, x, rest) then x else rest;
      forall k | k in ids && k != oldest ensures Older(jobs, oldest, k) {
        if k != x && k != rest {
          assert k in NewerIn(jobs, ids - {x}, rest);
        }
      }
    }
  }

  // Of any set of jobs, exactly min(size, m) have fewer than m newer ones.
  lemma {:induction false} KeptCount(jobs: map<Id, ScanJob>, ids: set<Id>, m: nat)
    requires ids <= jobs.Keys
    ensures |set k | k in ids && |NewerIn(jobs, ids, k)| < m| == if |ids| <= m then |ids| else m
    decreases |ids|
  {
    var kept := set k | k in ids && |NewerIn(jobs, ids, k)| < m;
    if ids == {} {
      assert kept == {};
    } else {
      var oldest := OldestExists(jobs, ids);
      var rest := ids - {oldest};
      KeptCount(jobs, rest, m);
      var keptRest := set k | k in rest && |NewerIn(jobs, rest, k)| < m;
      forall k | k in rest ensures NewerIn(jobs, ids, k) == NewerIn(jobs, rest, k) {
        assert k in NewerIn(jobs, ids, oldest);
      }
      assert |NewerIn(jobs, ids, oldest)| == |ids| - 1;
      if |ids| <= m {
        assert kept == keptRest + {oldest};
      } else {
        assert kept == keptRest;
      }
    }
  }

  lemma RetentionByOrder(s: Store)
    ensures var r := Retain(s);
      && ActiveIds(r.jobs) == ActiveIds(s.jobs)
      && TerminalIds(r.jobs) <= TerminalIds(s.jobs)
      && |TerminalIds(r.jobs)|
           == (if |TerminalIds(s.jobs)| <= s.maxRetained then |TerminalIds(s.jobs)| else s.maxRetained)
      && (forall id :: id in r.jobs ==> id in s.jobs && r.jobs[id] == s.jobs[id])
      && (forall gone, kept :: gone in TerminalIds(s.jobs) - TerminalIds(r.jobs) && kept in TerminalIds(r.jobs)
            ==> Older(s.jobs, gone, kept))
      && (forall k :: k in s.keys ==> (k !in r.keys <==> s.keys[k] in s.jobs && s.keys[k] !in r.jobs))
      && (forall k :: k in r.keys ==> k in s.keys && r.keys[k] == s.keys[k])
  {
    var r := Retain(s);
    var t := TerminalIds(s.jobs);
    KeptCount(s.jobs, t, s.maxRetained);
    assert TerminalIds(r.jobs) == set k | k in t && |NewerIn(s.jobs, t, k)| < s.maxRetained;
    assert ActiveIds(r.jobs) == ActiveIds(s.jobs);
    forall gone, kept | gone in t - TerminalIds(r.jobs) && kept in TerminalIds(r.jobs)
      ensures Older(s.jobs, gone, kept)
    {
      if !Older(s.jobs, gone, kept) {
        SubsetSize(NewerIn(s.jobs, t, gone), NewerIn(s.jobs, t, kept));
      }
    }
  }

  // Retention keeps every job that is accepted or running, keeps of the finished
  // ones exactly the maxRetained that were updated last, ties by id, changes
  // none of them, and drops exactly the keys of what it dropped.
  lemma RetentionKeepsNewest(s: Store)
    ensures var r := Retain(s);
      && (forall id :: id in r.jobs ==> id in s.jobs && r.jobs[id] == s.jobs[id])
      && (forall id :: id in s.jobs && (s.jobs[id].status == Accepted || s.jobs[id].status == Running) ==> id in r.jobs)
      && (forall gone, kept ::
            gone in s.jobs && gone !in r.jobs
            && kept in r.jobs && (r.jobs[kept].status == Completed || r.jobs[kept].status == Failed) ==>
              s.jobs[gone].updatedAt < s.jobs[kept].updatedAt
              || (s.jobs[gone].updatedAt == s.jobs[kept].updatedAt && gone < kept))
      && (var before := set id | id in s.jobs && (s.jobs[id].status == Completed || s.jobs[id].status == Failed);
          var after := set id | id in r.jobs && (r.jobs[id].status == Completed || r.jobs[id].status == Failed);
          |after| == (if |before| <= s.maxRetained then |before| else s.maxRetained))
      && (forall k :: k in s.keys ==> (k !in r.keys <==> s.keys[k] in s.jobs && s.keys[k] !in r.jobs))
      && (forall k :: k in r.keys ==> k in s.keys && r.keys[k] == s.keys[k])
  {
    hide Retain;
    var r := Retain(s);
    RetentionByOrder(s);
    assert (set id | id in s.jobs && (s.jobs[id].status == Completed || s.jobs[id].status == Failed))
      == TerminalIds(s.jobs);
    assert (set id | id in r.jobs && (r.jobs[id].status == Completed || r.jobs[id].status == Failed))
      == TerminalIds(r.jobs);
    forall id | id in s.jobs && (s.jobs[id].status == Accepted || s.jobs[id].status == Running) ensures id in r.jobs {
      assert id in ActiveIds(s.jobs);
    }
    forall gone, kept |
      gone in s.jobs && gone !in r.jobs
      && kept in r.jobs && (r.jobs[kept].status == Completed || r.jobs[kept].status == Failed)
      ensures Older(s.jobs, gone, kept)
    {
      assert gone !in ActiveIds(s.jobs) && gone in TerminalIds(s.jobs) - TerminalIds(r.jobs);
      assert kept in TerminalIds(r.jobs);
    }
  }

  // In particular the job that finished last is still there to be fetched.
  lemma LatestIsKept(s: Store, id: Id)
    requires s.maxRetained >= 1 && id in s.jobs
    requires forall other :: other in s.jobs && other != id ==>
      s.jobs[other].status == Accepted || s.jobs[other].status == Running
      || s.jobs[other].updatedAt < s.jobs[id].updatedAt
    ensures id in Retain(s).jobs && Retain(s).jobs[id] == s.jobs[id]
  {
    assert NewerIn(s.jobs, TerminalIds(s.jobs), id) == {};
  }

  // The two status classes, counted: whatever jobs are accepted or running are
  // among the active ones, and whatever jobs are completed or failed among the
  // terminal ones.
  lemma CountsAllJobs(jobs: map<Id, ScanJob>, ids: set<Id>)
    requires ids <= jobs.Keys
    ensures (forall id :: id in ids ==> jobs[id].status == Accepted || jobs[id].status == Running)
      ==> |ids| <= |ActiveIds(jobs)|
    ensures (forall id :: id in ids ==> jobs[id].status == Completed || jobs[id].status == Failed)
      ==> |ids| <= |TerminalIds(jobs)|
  {
    if forall id :: id in ids ==> jobs[id].status == Accepted || jobs[id].status == Running {
      SubsetSize(ids, ActiveIds(jobs));
    }
    if forall id :: id in ids ==> jobs[id].status == Completed || jobs[id].status == Failed {
      SubsetSize(ids, TerminalIds(jobs));
    }
  }

  // A store within bounds is left alone.
  lemma RetentionIdle(s: Store)
    requires |TerminalIds(s.jobs)| <= s.maxRetained
    ensures Retain(s) == s
  {
    var r := Retain(s);
    RetentionByOrder(s);
    SubsetSize(TerminalIds(r.jobs), TerminalIds(s.jobs));
    forall id | id in s.jobs ensures id in r.jobs {
      assert Active(s.jobs[id]) || id in TerminalIds(s.jobs);
      assert id in ActiveIds(r.jobs) || id in TerminalIds(r.jobs);
    }
    assert r.jobs == s.jobs;
    assert r.keys == s.keys;
  }

  // Hence one update pushes out at most one job, and none when the updated job
  // is an active one that stays active.
  lemma UpdateEvictsAtMostOne(s: Store, id: Id, job: ScanJob)
    requires |TerminalIds(s.jobs)| <= s.maxRetained
    ensures |s.jobs.Keys - Update(s, id, job).jobs.Keys| <= 1
  {
    if id in s.jobs {
      var changed := s.(jobs := s.jobs[id := job]);
      var r := Retain(changed);
      RetentionByOrder(changed);
      var before, after := TerminalIds(changed.jobs), TerminalIds(r.jobs);
      assert before <= TerminalIds(s.jobs) + {id};
      SubsetSize(before, TerminalIds(s.jobs) + {id});
      assert |before - after| == |before| - |after|;
      forall k | k in s.jobs.Keys - r.jobs.Keys ensures k in before - after {
        assert k in changed.jobs && (Active(changed.jobs[k]) || k in before);
        assert k !in ActiveIds(r.jobs) && k !in after;
      }
      SubsetSize(s.jobs.Keys - r.jobs.Keys, before - after);
    } else {
      assert s.jobs.Keys - s.jobs.Keys == {};
    }
  }

  lemma MarkRunningInPlace(s: Store, id: Id, now: Time)
    requires |TerminalIds(s.jobs)| <= s.maxRetained
    requires id in s.jobs && Active(s.jobs[id])
    ensures MarkRunning(s, id, now) ==
      s.(jobs := s.jobs[id := s.jobs[id].(status := Running, updatedAt := now)])
  {
    var changed := s.(jobs := s.jobs[id := s.jobs[id].(status := Running, updatedAt := now)]);
    assert TerminalIds(changed.jobs) == TerminalIds(s.jobs);
    RetentionIdle(changed);
  }

  // Called out of order, on a finished job, markRunning brings the job back to
  // life past a full store: the limit survives exactly when the job was active
  // or there was room. runScan never calls it that way; see GoEngine.
  lemma MarkRunningKeepsLimit(s: Store, id: Id, now: Time)
    requires |ActiveIds(s.jobs)| <= s.maxActive && |TerminalIds(s.jobs)| <= s.maxRetained
    requires id in s.jobs
    ensures |ActiveIds(MarkRunning(s, id, now).jobs)| <= s.maxActive
      <==> Active(s.jobs[id]) || |ActiveIds(s.jobs)| < s.maxActive
  {
    var changed := s.(jobs := s.jobs[id := s.jobs[id].(status := Running, updatedAt := now)]);
    assert ActiveIds(changed.jobs) == ActiveIds(s.jobs) + {id};
    assert TerminalIds(changed.jobs) == TerminalIds(s.jobs) - {id};
    SubsetSize(TerminalIds(changed.jobs), TerminalIds(s.jobs));
    RetentionIdle(changed);
  }

  // A full store with one finished job, revived.
  lemma RevivalExceedsLimit(request: ScanRequest, now: Time)
    ensures var live := NewScanJob(1, request, now);
      var done := NewScanJob(2, request, now).(status := Failed, error := "refused");
      var s := Store(map[1 := live, 2 := done], map[], 1, 1);
      |ActiveIds(s.jobs)| == 1 && |ActiveIds(MarkRunning(s, 2, now).jobs)| == 2
  {
    var live := NewScanJob(1, request, now);
    var done := NewScanJob(2, request, now).(status := Failed, error := "refused");
    var s := Store(map[1 := live, 2 := done], map[], 1, 1);
    assert ActiveIds(s.jobs) == {1} && TerminalIds(s.jobs) == {2};
    var changed := s.(jobs := s.jobs[2 := s.jobs[2].(status := Running, updatedAt := now)]);
    assert ActiveIds(changed.jobs) == {1, 2} && TerminalIds(changed.jobs) == {};
    RetentionIdle(changed);
  }
}
