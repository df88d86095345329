// The job store of scanner-engine/cmd/server/jobs.go as the object it is: two
// maps updated in place, loops over maps in an arbitrary order, a sort and the
// nested deletes of retention. Each method computes the function of module
// JobStore that carries the proofs.
module JobStoreObject {
  import opened Collections
  import opened ScanTasks
  import opened JobStore

  // ------------------------------------------------------------ oldest first

  ghost predicate OldestFirst(jobs: map<Id, ScanJob>, ids: seq<Id>)
    requires Elements(ids) <= jobs.Keys
  {
    forall i, j :: 0 <= i < j < |ids| ==> Older(jobs, ids[i], ids[j])
  }

  // Stands for sort.Slice: an insertion sort under the same comparison.
  function Insert(jobs: map<Id, ScanJob>, id: Id, sorted: seq<Id>): (r: seq<Id>)
    requires id in jobs && Elements(sorted) <= jobs.Keys
    ensures Elements(r) == Elements(sorted) + {id}
    ensures |r| == |sorted| + 1
  {
    if sorted == [] then [id]
    else
      assert sorted[0] in Elements(sorted);
      assert Elements(sorted) == {sorted[0]} + Elements(sorted[1..]);
      if Older(jobs, id, sorted[0]) then
        assert Elements([id] + sorted) == Elements(sorted) + {id};
        [id] + sorted
      else
        var tail := Insert(jobs, id, sorted[1..]);
        assert Elements([sorted[0]] + tail) == {sorted[0]} + Elements(tail);
        [sorted[0]] + tail
  }

  lemma {:induction false} InsertSorts(jobs: map<Id, ScanJob>, id: Id, sorted: seq<Id>)
    requires id in jobs && Elements(sorted) <= jobs.Keys && id !in sorted
    requires OldestFirst(jobs, sorted)
    ensures OldestFirst(jobs, Insert(jobs, id, sorted))
  {
    var r := Insert(jobs, id, sorted);
    if sorted != [] {
      assert sorted[0] in Elements(sorted) && Elements(sorted[1..]) <= Elements(sorted);
      if !Older(jobs, id, sorted[0]) {
        InsertSorts(jobs, id, sorted[1..]);
        var tail := Insert(jobs, id, sorted[1..]);
        forall j | 0 <= j < |tail| ensures Older(jobs, sorted[0], tail[j]) {
          assert tail[j] in Elements(sorted[1..]) + {id};
        }
      }
    }
  }

  function Sort(jobs: map<Id, ScanJob>, ids: seq<Id>): (r: seq<Id>)
    requires Elements(ids) <= jobs.Keys && Distinct(ids)
    ensures Elements(r) == Elements(ids) && |r| == |ids|
    ensures OldestFirst(jobs, r)
    ensures forall i, j :: 0 <= i < j < |r| ==>
      r[i] in jobs && r[j] in jobs
      && (jobs[r[i]].updatedAt < jobs[r[j]].updatedAt || (jobs[r[i]].updatedAt == jobs[r[j]].updatedAt && r[i] < r[j]))
  {
    if ids == [] then []
    else
      assert Elements(ids) == Elements(ids[1..]) + {ids[0]};
      assert ids[0] !in Elements(ids[1..]);
      var rest := Sort(jobs, ids[1..]);
      InsertSorts(jobs, ids[0], rest);
      Insert(jobs, ids[0], rest)
  }

  // What is newer than a job of the sorted list is what stands behind it.
  lemma NewerIsBehind(jobs: map<Id, ScanJob>, ids: seq<Id>, i: nat)
    requires Elements(ids) <= jobs.Keys && OldestFirst(jobs, ids) && i < |ids|
    ensures |NewerIn(jobs, Elements(ids), ids[i])| == |ids| - 1 - i
  {
    var behind := ids[i + 1..];
    forall k | k in Elements(ids) ensures Older(jobs, ids[i], k) <==> k in behind {
      var j :| 0 <= j < |ids| && ids[j] == k;
      if j > i {
        assert behind[j - i - 1] == k;
      }
    }
    assert NewerIn(jobs, Elements(ids), ids[i]) == Elements(behind);
    DistinctIffFull(behind);
  }

  // So the prefix that retention deletes is exactly the set of expired jobs.
  lemma ExpiredPrefix(s: Store, ids: seq<Id>, count: nat)
    requires Elements(ids) == TerminalIds(s.jobs) && OldestFirst(s.jobs, ids)
    requires count == |ids| - s.maxRetained
    ensures forall id :: id in s.jobs ==> (Expired(s, id) <==> id in ids[..count])
  {
    forall id | id in s.jobs ensures Expired(s, id) <==> id in ids[..count] {
      if id in Elements(ids) {
        var i :| 0 <= i < |ids| && ids[i] == id;
        NewerIsBehind(s.jobs, ids, i);
        if i < count {
          assert ids[..count][i] == id;
        }
      } else {
        assert !Terminal(s.jobs[id]);
        assert id !in ids[..count];
      }
    }
  }

  function Without(keys: map<Id, Id>, gone: set<Id>): map<Id, Id> {
    map k | k in keys && keys[k] !in gone :: keys[k]
  }

  lemma PrefixRetains(s: Store, expired: seq<Id>)
    requires forall id :: id in s.jobs ==> (Expired(s, id) <==> id in expired)
    requires Elements(expired) <= s.jobs.Keys
    ensures Retain(s) == s.(jobs := s.jobs - Elements(expired), keys := Without(s.keys, Elements(expired)))
  {
    hide Expired;
    assert Retain(s).jobs == s.jobs - Elements(expired);
    assert Retain(s).keys == Without(s.keys, Elements(expired));
  }

  // What the active limit is about.
  predicate WaitOrWork(jobs: map<Id, ScanJob>, ids: set<Id>) {
    forall id :: id in ids ==> id in jobs && (jobs[id].status == Accepted || jobs[id].status == Running)
  }

  lemma CountsWorking(jobs: map<Id, ScanJob>)
    ensures WaitOrWork(jobs, ActiveIds(jobs))
    ensures forall ids: set<Id> :: WaitOrWork(jobs, ids) ==> |ids| <= |ActiveIds(jobs)|
  {
    forall ids: set<Id> | WaitOrWork(jobs, ids) ensures |ids| <= |ActiveIds(jobs)| {
      CountsAllJobs(jobs, ids);
    }
  }

  class Jobs {
    var jobs: map<Id, ScanJob>
    var idempotencyKeys: map<Id, Id>
    const maxActive: nat
    const maxRetained: nat

    function AsStore(): Store
      reads this
    {
      Store(jobs, idempotencyKeys, maxActive, maxRetained)
    }

    constructor (maxActive: nat, maxRetained: nat)
      ensures AsStore() == NewStore(maxActive, maxRetained)
    {
      jobs, idempotencyKeys := map[], map[];
      this.maxActive, this.maxRetained := maxActive, maxRetained;
    }

    // Creates at most one job per retained key, and refuses when full.
    method Admit(job: ScanJob, idempotencyKey: Option<Id>) returns (outcome: Admission)
      modifies this
      ensures (AsStore(), outcome) == JobStore.Admit(old(AsStore()), job, idempotencyKey)
      ensures outcome.Admitted? && !outcome.created ==>
        && AsStore() == old(AsStore())
        && idempotencyKey.Some? && idempotencyKey.value in old(idempotencyKeys)
        && old(idempotencyKeys)[idempotencyKey.value] in old(jobs)
        && outcome.job == old(jobs)[old(idempotencyKeys)[idempotencyKey.value]]
        && outcome.job.request == job.request
      ensures outcome.Admitted? && outcome.created ==>
        && outcome.job == job && jobs == old(jobs)[job.id := job]
        && (idempotencyKey.Some? ==>
              idempotencyKey.value in idempotencyKeys && idempotencyKeys[idempotencyKey.value] == job.id)
      ensures outcome.LimitReached? <==>
        && (idempotencyKey.Some? && idempotencyKey.value in old(idempotencyKeys) ==>
              old(idempotencyKeys)[idempotencyKey.value] !in old(jobs))
        && exists ids: set<Id> :: WaitOrWork(old(jobs), ids) && |ids| >= maxActive
    {
      if idempotencyKey.Some? {
        var key := idempotencyKey.value;
        if key in idempotencyKeys {
          var existingId := idempotencyKeys[key];
          if existingId in jobs {
            var existing := jobs[existingId];
            if existing.request != job.request {
              return Conflict;
            }
            return Admitted(existing, false);
          }
          idempotencyKeys := idempotencyKeys - {key};
        } else {
          assert idempotencyKeys == idempotencyKeys - {key};
        }
      }
      var count := ActiveCountLocked();
      CountsWorking(jobs);
      if count >= maxActive {
        return LimitReached;
      }
      jobs := jobs[job.id := job];
      if idempotencyKey.Some? {
        idempotencyKeys := idempotencyKeys[idempotencyKey.value := job.id];
      }
      return Admitted(job, true);
    }

    method Get(id: Id) returns (found: Option<ScanJob>)
      ensures found == if id in jobs then Some(jobs[id]) else None
    {
      if id in jobs {
        return Some(jobs[id]);
      }
      return None;
    }

    method MarkRunning(id: Id, now: Time)
      modifies this
      ensures AsStore() == JobStore.MarkRunning(old(AsStore()), id, now)
      ensures id in old(jobs) ==> id in jobs && jobs[id] == old(jobs)[id].(status := Running, updatedAt := now)
    {
      Update(id, (job: ScanJob) => job.(status := Running), now);
    }

    method MarkCompleted(id: Id, result: ScanResult, now: Time)
      modifies this
      ensures AsStore() == JobStore.MarkCompleted(old(AsStore()), id, result, now)
      ensures id in old(jobs) && id in jobs ==>
        jobs[id] == old(jobs)[id].(status := Completed, result := Some(result), error := "", updatedAt := now)
    {
      Update(id, (job: ScanJob) => job.(status := Completed, result := Some(result), error := ""), now);
    }

    method MarkFailed(id: Id, error: string, now: Time)
      modifies this
      ensures AsStore() == JobStore.MarkFailed(old(AsStore()), id, error, now)
      ensures id in old(jobs) && id in jobs ==>
        jobs[id] == old(jobs)[id].(status := Failed, result := None, error := error, updatedAt := now)
    {
      Update(id, (job: ScanJob) => job.(status := Failed, error := error, result := None), now);
    }

    method Update(id: Id, change: ScanJob -> ScanJob, now: Time)
      modifies this
      ensures AsStore() == (if id in old(jobs)
        then JobStore.Update(old(AsStore()), id, change(old(jobs)[id]).(updatedAt := now))
        else old(AsStore()))
      ensures id in old(jobs) && id in jobs ==> jobs[id] == change(old(jobs)[id]).(updatedAt := now)
      ensures forall other :: other in jobs ==> other in old(jobs) && (other != id ==> jobs[other] == old(jobs)[other])
      ensures id in old(jobs) && (change(old(jobs)[id]).status == Accepted || change(old(jobs)[id]).status == Running)
        ==> id in jobs
    {
      if id !in jobs {
        return;
      }
      var job := change(jobs[id]);
      job := job.(updatedAt := now);
      jobs := jobs[id := job];
      EnforceRetentionLocked();
    }

    method ActiveCountLocked() returns (count: nat)
      ensures count == |ActiveIds(jobs)|
      ensures var working := set id | id in jobs && (jobs[id].status == Accepted || jobs[id].status == Running);
        count == |working|
    {
      count := 0;
      var remaining := jobs.Keys;
      ghost var counted: set<Id> := {};
      while remaining != {}
        invariant remaining <= jobs.Keys
        invariant counted == set id | id in jobs.Keys - remaining && Active(jobs[id])
        invariant count == |counted|
        decreases |remaining|
      {
        var id :| id in remaining;
        if Active(jobs[id]) {
          count, counted := count + 1, counted + {id};
        }
        remaining := remaining - {id};
      }
      assert counted == ActiveIds(jobs);
      assert counted == set id | id in jobs && (jobs[id].status == Accepted || jobs[id].status == Running);
    }

    // Whatever order the maps are visited in, exactly the expired jobs and
    // exactly their keys go.
    method EnforceRetentionLocked()
      modifies this
      ensures AsStore() == Retain(old(AsStore()))
      ensures jobs.Keys <= old(jobs).Keys && forall id :: id in jobs ==> jobs[id] == old(jobs)[id]
      ensures forall id :: id in old(jobs) && (old(jobs)[id].status == Accepted || old(jobs)[id].status == Running) ==>
        id in jobs
      ensures forall gone, kept ::
        gone in old(jobs) && gone !in jobs
        && kept in jobs && (jobs[kept].status == Completed || jobs[kept].status == Failed) ==>
          old(jobs)[gone].updatedAt < jobs[kept].updatedAt
          || (old(jobs)[gone].updatedAt == jobs[kept].updatedAt && gone < kept)
    {
      RetentionKeepsNewest(AsStore());
      var terminal := TerminalLocked();
      DistinctIffFull(terminal);
      if |terminal| <= maxRetained {
        RetentionIdle(AsStore());
        return;
      }
      terminal := Sort(jobs, terminal);
      var expired := terminal[..|terminal| - maxRetained];
      ExpiredPrefix(AsStore(), terminal, |terminal| - maxRetained);
      ghost var before := AsStore();
      DeleteAll(expired);
      PrefixRetains(before, expired);
    }

    // Deletes the given jobs, and for each of them the keys that name it.
    method DeleteAll(expired: seq<Id>)
      modifies this
      ensures jobs == old(jobs) - Elements(expired)
      ensures idempotencyKeys == Without(old(idempotencyKeys), Elements(expired))
    {
      ghost var before := AsStore();
      var i := 0;
      while i < |expired|
        invariant 0 <= i <= |expired|
        invariant jobs == before.jobs - Elements(expired[..i])
        invariant idempotencyKeys == Without(before.keys, Elements(expired[..i]))
      {
        assert Elements(expired[..i + 1]) == Elements(expired[..i]) + {expired[i]};
        jobs := jobs - {expired[i]};
        DropKeysOf(expired[i]);
        i := i + 1;
      }
      assert expired[..i] == expired;
    }

    method TerminalLocked() returns (terminal: seq<Id>)
      ensures Distinct(terminal) && Elements(terminal) == TerminalIds(jobs)
    {
      terminal := [];
      var remaining := jobs.Keys;
      while remaining != {}
        invariant remaining <= jobs.Keys
        invariant Distinct(terminal)
        invariant Elements(terminal) == set id | id in jobs.Keys - remaining && Terminal(jobs[id])
        decreases |remaining|
      {
        var id :| id in remaining;
        if Terminal(jobs[id]) {
          assert id !in Elements(terminal);
          assert Elements(terminal + [id]) == Elements(terminal) + {id};
          terminal := terminal + [id];
        }
        remaining := remaining - {id};
      }
    }

    method DropKeysOf(id: Id)
      modifies this`idempotencyKeys
      ensures idempotencyKeys == Without(old(idempotencyKeys), {id})
    {
      ghost var before := idempotencyKeys;
      var remaining := idempotencyKeys.Keys;
      while remaining != {}
        invariant remaining <= before.Keys
        invariant forall k :: k in idempotencyKeys <==> k in before && (k in remaining || before[k] != id)
        invariant forall k :: k in idempotencyKeys ==> idempotencyKeys[k] == before[k]
        decreases |remaining|
      {
        var key :| key in remaining;
        if idempotencyKeys[key] == id {
          idempotencyKeys := idempotencyKeys - {key};
        }
        remaining := remaining - {key};
      }
    }
  }
}
