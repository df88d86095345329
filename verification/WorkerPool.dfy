// The worker pool of scanner-engine/internal/scanner/scanner.go under every
// schedule: one launching loop and one goroutine per task, a counting semaphore
// (the buffered channel), a wait group, and a mutex around the append, which
// reads the slice and writes it back in two separate steps.
module WorkerPool {
  import opened Collections
  import opened ScanTasks

  // Where the launching loop stands: at the channel send, at wg.Add, at the go
  // statement, at wg.Wait, or past it.
  datatype Launcher = AtSend | AtAdd | AtGo | AtWait | Returned

  // Where a goroutine stands. The deferred calls run last-in first-out, so the
  // slot is given back before the wait group is told.
  datatype Stage =
    | Dialing
    | Dialed
    | Entered
    | Loaded(seen: seq<PortResult>)
    | Stored
    | Unlocked
    | Released
    | Finished

  // What the network answers to each task of the nested loops, in loop order,
  // and the configured number of concurrent dials.
  datatype Work = Work(rows: seq<PortResult>, cap: nat)

  datatype Pool = Pool(
    launcher: Launcher,
    sem: nat,
    wg: int,
    mu: Option<nat>,
    results: seq<PortResult>,
    workers: seq<Stage>)

  datatype Step = Launch | Advance(i: nat)

  function Start(): Pool {
    Pool(AtSend, 0, 0, None, [], [])
  }

  // The answers the tasks of one scan would get, one state per task.
  function WorkOf(config: ScanConfig, states: seq<PortState>, cap: nat): Work
    requires |states| == |Tasks(config.pins, config.request)|
  {
    Work(seq(|states|, i requires 0 <= i < |states| =>
           PortResult(Tasks(config.pins, config.request)[i], states[i])), cap)
  }

  predicate CanStep(c: Work, s: Pool, step: Step) {
    match step
    case Launch => CanLaunch(c, s)
    case Advance(i) => i < |s.workers| && i < |c.rows| && CanAdvance(s, i)
  }

  // The send blocks while the channel is full, the wait while a goroutine is out.
  predicate CanLaunch(c: Work, s: Pool) {
    match s.launcher
    case AtSend => |s.workers| >= |c.rows| || s.sem < c.cap
    case AtAdd => true
    case AtGo => true
    case AtWait => s.wg == 0
    case Returned => false
  }

  // Lock blocks while the mutex is held, and a receive on an empty channel blocks.
  predicate CanAdvance(s: Pool, i: nat)
    requires i < |s.workers|
  {
    match s.workers[i]
    case Dialed => s.mu == None
    case Unlocked => s.sem > 0
    case Finished => false
    case _ => true
  }

  function Apply(c: Work, s: Pool, step: Step): Pool
    requires CanStep(c, s, step)
  {
    match step
    case Launch => ApplyLaunch(c, s)
    case Advance(i) => ApplyAdvance(c, s, i)
  }

  function ApplyLaunch(c: Work, s: Pool): Pool
    requires CanLaunch(c, s)
  {
    match s.launcher
    case AtSend => if |s.workers| >= |c.rows| then s.(launcher := AtWait) else s.(launcher := AtAdd, sem := s.sem + 1)
    case AtAdd => s.(launcher := AtGo, wg := s.wg + 1)
    case AtGo => s.(launcher := AtSend, workers := s.workers + [Dialing])
    case AtWait => s.(launcher := Returned)
  }

  function Next(s: Pool, i: nat): Stage
    requires i < |s.workers| && CanAdvance(s, i)
  {
    match s.workers[i]
    case Dialing => Dialed
    case Dialed => Entered
    case Entered => Loaded(s.results)
    case Loaded(_) => Stored
    case Stored => Unlocked
    case Unlocked => Released
    case Released => Finished
  }

  function ApplyAdvance(c: Work, s: Pool, i: nat): Pool
    requires i < |s.workers| && i < |c.rows| && CanAdvance(s, i)
  {
    var moved := s.(workers := s.workers[i := Next(s, i)]);
    match s.workers[i]
    case Dialed => moved.(mu := Some(i))
    case Loaded(seen) => moved.(results := seen + [c.rows[i]])
    case Stored => moved.(mu := None)
    case Unlocked => moved.(sem := s.sem - 1)
    case Released => moved.(wg := s.wg - 1)
    case _ => moved
  }

  // t is reached from s by taking the steps in order.
  ghost predicate Schedule(c: Work, s: Pool, steps: seq<Step>, t: Pool)
    decreases |steps|
  {
    if steps == [] then s == t
    else CanStep(c, s, steps[0]) && Schedule(c, Apply(c, s, steps[0]), steps[1..], t)
  }

  // ------------------------------------------------------------------ counting

  function Total(workers: seq<Stage>, weight: Stage -> nat): nat {
    if workers == [] then 0 else Total(workers[..|workers| - 1], weight) + weight(workers[|workers| - 1])
  }

  lemma {:induction false} TotalUpdate(workers: seq<Stage>, weight: Stage -> nat, i: nat, stage: Stage)
    requires i < |workers|
    ensures Total(workers[i := stage], weight) == Total(workers, weight) - weight(workers[i]) + weight(stage)
  {
    var last := |workers| - 1;
    if i == last {
      assert workers[i := stage][..last] == workers[..last];
    } else {
      assert workers[i := stage][..last] == workers[..last][i := stage];
      TotalUpdate(workers[..last], weight, i, stage);
    }
  }

  lemma TotalAppend(workers: seq<Stage>, weight: Stage -> nat, stage: Stage)
    ensures Total(workers + [stage], weight) == Total(workers, weight) + weight(stage)
  {
    assert (workers + [stage])[..|workers|] == workers;
  }

  lemma {:induction false} TotalMember(workers: seq<Stage>, weight: Stage -> nat, i: nat)
    requires i < |workers|
    ensures Total(workers, weight) >= weight(workers[i])
  {
    if i < |workers| - 1 {
      TotalMember(workers[..|workers| - 1], weight, i);
    }
  }

  lemma {:induction false} TotalZero(workers: seq<Stage>, weight: Stage -> nat)
    ensures Total(workers, weight) == 0 <==> forall i :: 0 <= i < |workers| ==> weight(workers[i]) == 0
  {
    if workers != [] {
      var rest := workers[..|workers| - 1];
      TotalZero(rest, weight);
      assert forall i :: 0 <= i < |rest| ==> rest[i] == workers[i];
    }
  }

  function Dials(stage: Stage): nat {
    if stage.Dialing? then 1 else 0
  }

  function Slots(stage: Stage): nat {
    if stage.Released? || stage.Finished? then 0 else 1
  }

  function Counted(stage: Stage): nat {
    if stage.Finished? then 0 else 1
  }

  predicate InSection(stage: Stage) {
    stage.Entered? || stage.Loaded? || stage.Stored?
  }

  predicate Unrecorded(stage: Stage) {
    stage.Dialing? || stage.Dialed? || stage.Entered? || stage.Loaded?
  }

  // The rows of the launched tasks that have not been appended yet.
  function Pending(workers: seq<Stage>, rows: seq<PortResult>): multiset<PortResult>
    requires |workers| <= |rows|
  {
    if workers == [] then multiset{}
    else
      var last := |workers| - 1;
      Pending(workers[..last], rows) + Owed(workers[last], rows[last])
  }

  // The row of task i, if it has not been appended at this stage.
  function Owed(stage: Stage, row: PortResult): multiset<PortResult> {
    if Unrecorded(stage) then multiset{row} else multiset{}
  }

  lemma PendingLast(workers: seq<Stage>, rows: seq<PortResult>, rest: seq<Stage>, stage: Stage)
    requires |workers| <= |rows| && workers == rest + [stage]
    ensures Pending(workers, rows) == Pending(rest, rows) + Owed(stage, rows[|rest|])
  {
    assert workers[..|workers| - 1] == rest;
  }

  lemma AddAround(a: multiset<PortResult>, b: multiset<PortResult>, c: multiset<PortResult>, d: multiset<PortResult>,
                  x: multiset<PortResult>)
    requires a + b == c + d
    ensures (a + x) + b == (c + x) + d
  {
    assert (a + x) + b == (a + b) + x;
    assert (c + x) + d == (c + d) + x;
  }

  lemma AddSwap(a: multiset<PortResult>, b: multiset<PortResult>, c: multiset<PortResult>)
    ensures (a + b) + c == (a + c) + b
  {}

  lemma {:induction false} PendingUpdate(workers: seq<Stage>, rows: seq<PortResult>, i: nat, stage: Stage)
    requires i < |workers| <= |rows|
    ensures Pending(workers, rows) + Owed(stage, rows[i])
      == Pending(workers[i := stage], rows) + Owed(workers[i], rows[i])
    decreases |workers|
  {
    hide Pending, Owed;
    var last := |workers| - 1;
    var rest := workers[..last];
    PendingLast(workers, rows, rest, workers[last]);
    if i == last {
      assert workers[i := stage] == rest + [stage];
      PendingLast(workers[i := stage], rows, rest, stage);
      AddSwap(Pending(rest, rows), Owed(workers[last], rows[last]), Owed(stage, rows[last]));
    } else {
      PendingUpdate(rest, rows, i, stage);
      assert workers[i := stage] == rest[i := stage] + [workers[last]];
      PendingLast(workers[i := stage], rows, rest[i := stage], workers[last]);
      AddAround(Pending(rest, rows), Owed(stage, rows[i]), Pending(rest[i := stage], rows), Owed(workers[i], rows[i]),
                Owed(workers[last], rows[last]));
    }
  }

  lemma Cancel(a: multiset<PortResult>, b: multiset<PortResult>, x: multiset<PortResult>)
    requires a + x == b + x
    ensures a == b
  {
    assert a == (a + x) - x;
    assert b == (b + x) - x;
  }

  // A stage that appends nothing owes what it owed.
  lemma PendingSame(workers: seq<Stage>, rows: seq<PortResult>, i: nat, stage: Stage)
    requires i < |workers| <= |rows| && Unrecorded(stage) == Unrecorded(workers[i])
    ensures Pending(workers[i := stage], rows) == Pending(workers, rows)
  {
    hide Pending, Unrecorded;
    PendingUpdate(workers, rows, i, stage);
    Cancel(Pending(workers, rows), Pending(workers[i := stage], rows), Owed(stage, rows[i]));
  }

  lemma PendingRecorded(workers: seq<Stage>, rows: seq<PortResult>, i: nat, stage: Stage)
    requires i < |workers| <= |rows| && Unrecorded(workers[i]) && !Unrecorded(stage)
    ensures Pending(workers, rows) == Pending(workers[i := stage], rows) + multiset{rows[i]}
  {
    hide Pending, Unrecorded;
    PendingUpdate(workers, rows, i, stage);
  }

  lemma {:induction false} PendingNone(workers: seq<Stage>, rows: seq<PortResult>)
    requires |workers| <= |rows| && forall i :: 0 <= i < |workers| ==> !Unrecorded(workers[i])
    ensures Pending(workers, rows) == multiset{}
  {
    if workers != [] {
      PendingNone(workers[..|workers| - 1], rows);
    }
  }

  // ----------------------------------------------------------------- invariant

  function Taken(launcher: Launcher): nat {
    if launcher == AtAdd || launcher == AtGo then 1 else 0
  }

  predicate LoopOk(c: Work, s: Pool) {
    match s.launcher
    case AtSend => |s.workers| <= |c.rows|
    case AtAdd => |s.workers| < |c.rows|
    case AtGo => |s.workers| < |c.rows|
    case AtWait => |s.workers| == |c.rows|
    case Returned => |s.workers| == |c.rows| && s.wg == 0
  }

  predicate CountsOk(c: Work, s: Pool) {
    && s.sem == Total(s.workers, Slots) + Taken(s.launcher) <= c.cap
    && s.wg == Total(s.workers, Counted) + (if s.launcher == AtGo then 1 else 0)
  }

  ghost predicate SectionOk(s: Pool) {
    && (s.mu.Some? ==> s.mu.value < |s.workers|)
    && (forall i :: 0 <= i < |s.workers| ==> (InSection(s.workers[i]) <==> s.mu == Some(i)))
    && (forall i :: 0 <= i < |s.workers| && s.workers[i].Loaded? ==> s.workers[i].seen == s.results)
  }

  ghost predicate RowsOk(c: Work, s: Pool) {
    && |s.workers| <= |c.rows|
    && multiset(s.results) + Pending(s.workers, c.rows) == multiset(c.rows[..|s.workers|])
  }

  ghost predicate PoolOk(c: Work, s: Pool) {
    LoopOk(c, s) && CountsOk(c, s) && SectionOk(s) && RowsOk(c, s)
  }

  lemma LaunchRows(c: Work, s: Pool)
    requires RowsOk(c, s) && |s.workers| < |c.rows|
    ensures RowsOk(c, s.(workers := s.workers + [Dialing]))
  {
    hide Pending;
    var n := |s.workers|;
    PendingLast(s.workers + [Dialing], c.rows, s.workers, Dialing);
    assert c.rows[..n + 1] == c.rows[..n] + [c.rows[n]];
  }

  lemma LaunchCounts(c: Work, s: Pool)
    requires CountsOk(c, s) && LoopOk(c, s) && CanLaunch(c, s)
    ensures CountsOk(c, ApplyLaunch(c, s)) && LoopOk(c, ApplyLaunch(c, s))
  {
    TotalAppend(s.workers, Slots, Dialing);
    TotalAppend(s.workers, Counted, Dialing);
  }

  lemma LaunchPreserves(c: Work, s: Pool)
    requires PoolOk(c, s) && CanLaunch(c, s)
    ensures PoolOk(c, ApplyLaunch(c, s))
  {
    hide Pending, Total;
    LaunchCounts(c, s);
    if s.launcher == AtGo {
      LaunchRows(c, s);
    }
  }

  lemma AdvanceCounts(c: Work, s: Pool, i: nat)
    requires LoopOk(c, s) && CountsOk(c, s) && i < |s.workers| && CanAdvance(s, i)
    ensures CountsOk(c, ApplyAdvance(c, s, i)) && LoopOk(c, ApplyAdvance(c, s, i))
  {
    TotalUpdate(s.workers, Slots, i, Next(s, i));
    TotalUpdate(s.workers, Counted, i, Next(s, i));
    TotalMember(s.workers, Counted, i);
  }

  lemma AdvanceSection(c: Work, s: Pool, i: nat)
    requires SectionOk(s) && i < |s.workers| && i < |c.rows| && CanAdvance(s, i)
    ensures SectionOk(ApplyAdvance(c, s, i))
  {
    var t := ApplyAdvance(c, s, i);
    assert forall k :: 0 <= k < |s.workers| && k != i ==> t.workers[k] == s.workers[k];
  }

  lemma AdvanceRows(c: Work, s: Pool, i: nat)
    requires SectionOk(s) && RowsOk(c, s) && i < |s.workers| && CanAdvance(s, i)
    ensures RowsOk(c, ApplyAdvance(c, s, i))
  {
    hide Pending;
    if s.workers[i].Loaded? {
      PendingRecorded(s.workers, c.rows, i, Stored);
      AddSwap(multiset(s.results), Pending(s.workers[i := Stored], c.rows), multiset{c.rows[i]});
    } else {
      PendingSame(s.workers, c.rows, i, Next(s, i));
    }
  }

  lemma StepPreserves(c: Work, s: Pool, step: Step)
    requires PoolOk(c, s) && CanStep(c, s, step)
    ensures PoolOk(c, Apply(c, s, step))
  {
    hide CountsOk, SectionOk, RowsOk, ApplyAdvance, ApplyLaunch;
    match step {
      case Launch =>
        LaunchPreserves(c, s);
      case Advance(i) =>
        AdvanceCounts(c, s, i);
        AdvanceSection(c, s, i);
        AdvanceRows(c, s, i);
    }
  }

  // -------------------------------------------------------------- termination

  function Left(stage: Stage): nat {
    match stage
    case Dialing => 7
    case Dialed => 6
    case Entered => 5
    case Loaded(_) => 4
    case Stored => 3
    case Unlocked => 2
    case Released => 1
    case Finished => 0
  }

  function Ahead(launcher: Launcher): int {
    match launcher
    case AtSend => 2
    case AtAdd => 1
    case AtGo => 0
    case AtWait => 1
    case Returned => 0
  }

  // Steps still to come, whatever the schedule.
  function Remaining(c: Work, s: Pool): int {
    10 * (|c.rows| - |s.workers|) + Ahead(s.launcher) + Total(s.workers, Left)
  }

  lemma StepCounts(c: Work, s: Pool, step: Step)
    requires LoopOk(c, s) && CanStep(c, s, step)
    ensures Remaining(c, Apply(c, s, step)) == Remaining(c, s) - 1
  {
    match step {
      case Launch =>
        TotalAppend(s.workers, Left, Dialing);
      case Advance(i) =>
        TotalUpdate(s.workers, Left, i, Next(s, i));
    }
  }

  lemma {:induction false} ScheduleOk(c: Work, s: Pool, steps: seq<Step>, t: Pool)
    requires PoolOk(c, s) && Schedule(c, s, steps, t)
    ensures PoolOk(c, t) && |steps| + Remaining(c, t) == Remaining(c, s)
    decreases |steps|
  {
    hide CountsOk, SectionOk, RowsOk, Remaining, Apply;
    if steps != [] {
      StepPreserves(c, s, steps[0]);
      StepCounts(c, s, steps[0]);
      ScheduleOk(c, Apply(c, s, steps[0]), steps[1..], t);
    }
  }

  lemma StartOk(c: Work)
    ensures PoolOk(c, Start()) && Remaining(c, Start()) == 10 * |c.rows| + 2
  {}

  // ---------------------------------------------------------------- main results

  lemma {:induction false} LighterTotal(workers: seq<Stage>, light: Stage -> nat, heavy: Stage -> nat)
    requires forall stage :: light(stage) <= heavy(stage)
    ensures Total(workers, light) <= Total(workers, heavy)
  {
    if workers != [] {
      LighterTotal(workers[..|workers| - 1], light, heavy);
    }
  }

  // The goroutines that are dialling, by number.
  function InFlight(workers: seq<Stage>): (r: set<nat>)
    ensures forall i: nat :: i in r <==> i < |workers| && workers[i].Dialing?
  {
    set i: nat | i < |workers| && workers[i].Dialing?
  }

  lemma {:induction false} DialsCounted(workers: seq<Stage>)
    ensures Total(workers, Dials) == |InFlight(workers)|
  {
    if workers != [] {
      var last := |workers| - 1;
      DialsCounted(workers[..last]);
      var before := InFlight(workers[..last]);
      assert InFlight(workers) == if workers[last].Dialing? then before + {last} else before;
      assert last !in before;
    } else {
      assert InFlight(workers) == {};
    }
  }

  // Under every schedule: never more dials in flight than configured, one
  // goroutine at a time in the critical section, the wait group never counted
  // below zero, and the receive that gives a slot back never blocks.
  lemma DialsAreBounded(c: Work, steps: seq<Step>, t: Pool)
    requires Schedule(c, Start(), steps, t)
    ensures |InFlight(t.workers)| <= c.cap
    ensures forall i, j :: 0 <= i < |t.workers| && 0 <= j < |t.workers| && i != j ==>
      || !(t.workers[i].Entered? || t.workers[i].Loaded? || t.workers[i].Stored?)
      || !(t.workers[j].Entered? || t.workers[j].Loaded? || t.workers[j].Stored?)
    ensures t.wg >= 0
    ensures forall i :: 0 <= i < |t.workers| && t.workers[i].Released? ==> t.wg > 0
    ensures forall i :: 0 <= i < |t.workers| && t.workers[i].Unlocked? ==> CanAdvance(t, i)
  {
    StartOk(c);
    ScheduleOk(c, Start(), steps, t);
    LighterTotal(t.workers, Dials, Slots);
    DialsCounted(t.workers);
    forall i | 0 <= i < |t.workers| && t.workers[i].Released? ensures t.wg > 0 {
      TotalMember(t.workers, Counted, i);
    }
    forall i | 0 <= i < |t.workers| && t.workers[i].Unlocked? ensures CanAdvance(t, i) {
      TotalMember(t.workers, Slots, i);
    }
  }

  // With at least one slot, every unfinished state has a step to take.
  lemma SomethingMoves(c: Work, s: Pool) returns (step: Step)
    requires PoolOk(c, s) && c.cap >= 1 && s.launcher != Returned
    ensures CanStep(c, s, step)
  {
    if CanLaunch(c, s) {
      return Launch;
    }
    if s.mu.Some? {
      return Advance(s.mu.value);
    }
    if s.launcher == AtSend {
      assert Total(s.workers, Slots) > 0;
      TotalZero(s.workers, Slots);
      var i :| 0 <= i < |s.workers| && Slots(s.workers[i]) != 0;
      return Advance(i);
    }
    TotalZero(s.workers, Counted);
    var i :| 0 <= i < |s.workers| && Counted(s.workers[i]) != 0;
    if s.workers[i].Unlocked? {
      TotalMember(s.workers, Slots, i);
    }
    return Advance(i);
  }

  lemma NothingAfterReturn(c: Work, s: Pool, step: Step)
    requires PoolOk(c, s) && s.launcher == Returned
    ensures !CanStep(c, s, step)
    ensures Pending(s.workers, c.rows) == multiset{}
  {
    TotalZero(s.workers, Counted);
    assert forall i :: 0 <= i < |s.workers| ==> Counted(s.workers[i]) == 0;
    PendingNone(s.workers, c.rows);
  }

  // A schedule is stuck exactly when Scan has returned; until then it can go on;
  // and the number of steps to the return is the same for every schedule.
  lemma EveryScheduleReturns(c: Work, steps: seq<Step>, t: Pool)
    requires c.cap >= 1 && Schedule(c, Start(), steps, t)
    ensures |steps| <= 10 * |c.rows| + 2
    ensures t.launcher == Returned <==> forall step :: !CanStep(c, t, step)
    ensures t.launcher == Returned <==> |steps| == 10 * |c.rows| + 2
  {
    hide SectionOk, RowsOk, CanStep;
    StartOk(c);
    ScheduleOk(c, Start(), steps, t);
    if t.launcher == Returned {
      forall step ensures !CanStep(c, t, step) {
        NothingAfterReturn(c, t, step);
      }
      TotalZero(t.workers, Counted);
      assert forall i :: 0 <= i < |t.workers| ==> Counted(t.workers[i]) == 0;
      TotalZero(t.workers, Left);
    } else {
      var step := SomethingMoves(c, t);
      StepCounts(c, t, step);
      StepPreserves(c, t, step);
      RemainingPositive(c, t, step);
    }
  }

  lemma RemainingPositive(c: Work, s: Pool, step: Step)
    requires PoolOk(c, s) && CanStep(c, s, step)
    ensures Remaining(c, s) >= 1
  {
    StepCounts(c, s, step);
    StepPreserves(c, s, step);
    assert LoopOk(c, Apply(c, s, step));
  }

  // What Scan returns holds each task's answer once: no lost append, no repeat.
  lemma ReturnedResults(c: Work, steps: seq<Step>, t: Pool)
    requires Schedule(c, Start(), steps, t) && t.launcher == Returned
    ensures multiset(t.results) == multiset(c.rows)
  {
    StartOk(c);
    ScheduleOk(c, Start(), steps, t);
    NothingAfterReturn(c, t, Launch);
    assert c.rows[..|t.workers|] == c.rows;
  }

  lemma EndpointsConcat(a: seq<PortResult>, b: seq<PortResult>)
    ensures Endpoints(a + b) == Endpoints(a) + Endpoints(b)
  {}

  lemma TakeOut(b: seq<PortResult>, i: nat)
    requires i < |b|
    ensures multiset(b) == multiset(b[..i] + b[i + 1..]) + multiset{b[i]}
    ensures multiset(Endpoints(b)) == multiset(Endpoints(b[..i] + b[i + 1..])) + multiset{b[i].endpoint}
  {
    assert b == b[..i] + [b[i]] + b[i + 1..];
    EndpointsConcat(b[..i], [b[i]]);
    EndpointsConcat(b[..i] + [b[i]], b[i + 1..]);
    EndpointsConcat(b[..i], b[i + 1..]);
    assert Endpoints([b[i]]) == [b[i].endpoint];
  }

  lemma {:induction false} SameEndpoints(a: seq<PortResult>, b: seq<PortResult>)
    requires multiset(a) == multiset(b)
    ensures multiset(Endpoints(a)) == multiset(Endpoints(b))
    decreases |a|
  {
    if a == [] {
      assert |multiset(a)| == |a| && |multiset(b)| == |b|;
      assert Endpoints(a) == Endpoints(b);
    } else {
      assert a[0] in multiset(b);
      var i :| 0 <= i < |b| && b[i] == a[0];
      TakeOut(a, 0);
      TakeOut(b, i);
      var restA, restB := a[..0] + a[1..], b[..i] + b[i + 1..];
      assert multiset(restA) == multiset(a) - multiset{a[0]};
      assert multiset(restB) == multiset(b) - multiset{a[0]};
      SameEndpoints(restA, restB);
    }
  }

  // So the result meets the contract on which the whole protocol is built.
  lemma ScanOutputIsComplete(config: ScanConfig, states: seq<PortState>, cap: nat, steps: seq<Step>, t: Pool)
    requires |states| == |Tasks(config.pins, config.request)|
    requires Schedule(WorkOf(config, states, cap), Start(), steps, t) && t.launcher == Returned
    ensures CompleteOutput(t.results, config)
    ensures forall i :: 0 <= i < |states| ==>
      PortResult(Tasks(config.pins, config.request)[i], states[i]) in t.results
  {
    var c := WorkOf(config, states, cap);
    ReturnedResults(c, steps, t);
    forall i | 0 <= i < |states| ensures PortResult(Tasks(config.pins, config.request)[i], states[i]) in t.results {
      assert c.rows[i] in multiset(c.rows);
      assert c.rows[i] in multiset(t.results);
    }
    SameEndpoints(t.results, c.rows);
    assert Endpoints(c.rows) == Tasks(config.pins, config.request);
  }
}
