// Finite runs of the dispatch protocol, for results that construct one.
module ProtocolRuns {
  import opened ScanTasks
  import opened ScanRecords
  import opened DispatchProtocol

  ghost predicate Leads(env: Env, s: System, actions: seq<Action>, t: System)
    decreases |actions|
  {
    if actions == [] then s == t
    else Enabled(env, s, actions[0]) && Leads(env, Apply(env, s, actions[0]), actions[1..], t)
  }

  lemma {:induction false} LeadsJoin(env: Env, s: System, a: seq<Action>, t: System, b: seq<Action>, u: System)
    requires Leads(env, s, a, t) && Leads(env, t, b, u)
    ensures Leads(env, s, a + b, u)
    decreases |a|
  {
    hide Enabled, Apply;
    if a == [] {
      assert a + b == b;
    } else {
      LeadsJoin(env, Apply(env, s, a[0]), a[1..], t, b, u);
      assert (a + b)[1..] == a[1..] + b;
    }
  }

  lemma LeadsOn(env: Env, s: System, actions: seq<Action>, t: System, a: Action, u: System)
    requires Leads(env, s, actions, t) && Enabled(env, t, a) && Apply(env, t, a) == u
    ensures Leads(env, s, actions + [a], u)
  {
    hide Enabled, Apply;
    assert Leads(env, u, [a][1..], u);
    LeadsJoin(env, s, actions, t, [a], u);
  }

  // A run is an execution.
  lemma {:induction false} LeadsExecutes(env: Env, s: System, actions: seq<Action>, t: System)
    returns (states: seq<System>)
    requires Leads(env, s, actions, t)
    ensures Execution(env, states, actions) && states[0] == s && states[|actions|] == t
    decreases |actions|
  {
    hide Enabled, Apply;
    if actions == [] {
      states := [s];
    } else {
      var rest := LeadsExecutes(env, Apply(env, s, actions[0]), actions[1..], t);
      states := [s] + rest;
      forall i | 0 <= i < |actions|
        ensures Enabled(env, states[i], actions[i]) && states[i + 1] == Apply(env, states[i], actions[i])
      {
        if i > 0 {
          assert states[i] == rest[i - 1] && actions[i] == actions[1..][i - 1] && states[i + 1] == rest[i];
        }
      }
    }
  }

  // What each step computes.
  lemma ProceedIs(env: Env, s: System, pid: Id, step: Step)
    requires CanProceed(env, s, pid, step)
    ensures ProceedStep(env, s, pid, step) == (
      match step
      case TakeLock => TakeLockStep(env, s, pid)
      case CountActive => CountStep(env, s, pid)
      case InsertRow => s.(procs := s.procs[pid := s.procs[pid].(pc := AdmitCommit(true))])
      case CommitAdmission => CommitStep(env, s, pid)
      case Claim(token, at) => ClaimStep(env, s, pid, token, at)
      case Authorize(decision, at) => AuthorizeStep(s, pid, decision)
      case Attach(at) => AttachStep(s, pid, at)
      case SendCreate => SendStep(s, pid)
      case ReceiveCreate => ReceiveStep(s, pid)
      case GiveUp => Move(s, pid, DispatchReturned)
      case Misread => Move(s, pid, DispatchFail(s.procs[pid].pc.token, InternalError, false))
      case RecordDispatch(at) => RecordDispatchStep(s, pid, at)
      case RecordFailure(at) => RecordFailureStep(s, pid, at)
      case Reload => ReloadStep(s, pid)
      case Fetch(outcome) => FetchStep(s, pid, outcome)
      case Synchronize(at) => SynchronizeStep(s, pid, at)
      case Refresh => RefreshStep(s, pid)
      case ReadResults => Respond(s, pid, s.procs[pid].pc.job, ResultsOf(s.db, s.procs[pid].scan), false)
      case Stop => Drop(Unlock(env, s, pid), pid))
  {
    hide TakeLockStep, CountStep, CommitStep, ClaimStep, AuthorizeStep, AttachStep, SendStep, ReceiveStep,
      RecordDispatchStep, RecordFailureStep, ReloadStep, FetchStep, SynchronizeStep, RefreshStep, Respond, Unlock, Drop,
      RuleAdmits, ValidPins;
  }
}
