// frontend/hooks/use-scan-detail.ts as an event loop. Every run of the effect
// is a generation with its own active, inFlight, timer and controller; requests
// and timers live in the runtime and outlast the generation that made them; and
// a state change takes effect only at the next commit.
module PollingHook {
  import opened Collections

  type ScanId = string
  datatype ScanStatus = Queued | Accepted | Running | Completed | Failed | Blocked
  datatype Scan = Scan(id: ScanId, status: ScanStatus)

  // How a request ends: a scan, an API error with its status, any other
  // exception, or the abort exception.
  datatype Outcome = Got(scan: Scan) | ApiError(status: int) | OtherError | AbortError

  // What the hook returns; an error is its status.
  datatype Shown = Shown(scan: Option<Scan>, loading: bool, error: Option<int>, retrying: bool)

  // `last` is history: what the generation was last told.
  datatype Generation = Generation(
    id: ScanId,
    request: nat,
    active: bool,
    inFlight: bool,
    timer: Option<nat>,
    controller: Option<nat>,
    last: Option<Outcome>)

  datatype Request = Request(generation: nat, aborted: bool)

  datatype State = State(
    mounted: bool,
    id: ScanId,
    requestGeneration: nat,
    shown: Shown,
    generations: seq<Generation>,
    timers: map<nat, nat>,
    requests: map<nat, Request>,
    issued: nat)

  datatype Event =
    | SetId(id: ScanId)
    | Retry
    | Commit
    | Unmount
    | Fire(timer: nat)
    | Settle(request: nat, outcome: Outcome)

  predicate ActiveStatus(status: ScanStatus) {
    status == Queued || status == Accepted || status == Running
  }

  predicate Temporary(o: Outcome) {
    o.OtherError? || (o.ApiError? && (o.status == 0 || o.status == 408 || o.status == 429 || o.status >= 500))
  }

  // Polling goes on after an active status and after a temporary failure.
  predicate Continues(o: Outcome) {
    (o.Got? && ActiveStatus(o.scan.status)) || Temporary(o)
  }

  // ------------------------------------------------------------------- the code

  function StartLoad(s: State, g: nat): State
    requires g < |s.generations|
  {
    var gen := s.generations[g];
    if !gen.active || gen.inFlight then s
    else s.(generations := s.generations[g := gen.(inFlight := true, controller := Some(s.issued))],
            requests := s.requests[s.issued := Request(g, false)],
            issued := s.issued + 1)
  }

  function Schedule(s: State, g: nat): State
    requires g < |s.generations|
  {
    s.(generations := s.generations[g := s.generations[g].(timer := Some(s.issued))],
       timers := s.timers[s.issued := g],
       issued := s.issued + 1)
  }

  // The effect: a new generation and its first load.
  function RunEffect(s: State): State {
    var gen := Generation(s.id, s.requestGeneration, true, false, None, None, None);
    StartLoad(s.(generations := s.generations + [gen]), |s.generations|)
  }

  function Cleanup(s: State, g: nat): State
    requires g < |s.generations|
  {
    var gen := s.generations[g];
    s.(generations := s.generations[g := gen.(active := false)],
       timers := if gen.timer.Some? then s.timers - {gen.timer.value} else s.timers,
       requests := if gen.controller.Some? && gen.controller.value in s.requests
                   then s.requests[gen.controller.value := s.requests[gen.controller.value].(aborted := true)]
                   else s.requests)
  }

  // The awaited promise settles: the rest of load, up to its finally block.
  function Resume(s: State, g: nat, o: Outcome): State
    requires g < |s.generations|
  {
    if !s.generations[g].active || o.AbortError? then s
    else
      var told := s.(generations := s.generations[g := s.generations[g].(last := Some(o))],
                     shown := Tell(s.shown, o));
      if Continues(o) then Schedule(told, g) else told
  }

  function Tell(shown: Shown, o: Outcome): Shown {
    match o
    case Got(scan) => Shown(Some(scan), false, None, false)
    case ApiError(status) => shown.(error := Some(status), loading := false, retrying := Temporary(o))
    case _ => shown.(error := Some(0), loading := false, retrying := true)
  }

  function Finally(s: State, g: nat): State
    requires g < |s.generations|
  {
    s.(generations := s.generations[g := s.generations[g].(inFlight := false, controller := None)])
  }

  function Mounted(id: ScanId): State {
    RunEffect(State(true, id, 0, Shown(None, true, None, false), [], map[], map[], 0))
  }

  predicate Stale(s: State) {
    s.generations != [] &&
    var gen := s.generations[|s.generations| - 1];
    gen.id != s.id || gen.request != s.requestGeneration
  }

  // An abort exception reaches only a request whose controller was aborted.
  predicate Possible(s: State, e: Event) {
    match e
    case SetId(id) => s.mounted
    case Retry => s.mounted
    case Commit => s.mounted && Stale(s)
    case Unmount => s.mounted && s.generations != []
    case Fire(timer) => timer in s.timers && s.timers[timer] < |s.generations|
    case Settle(request, outcome) =>
      && request in s.requests && s.requests[request].generation < |s.generations|
      && (outcome.AbortError? ==> s.requests[request].aborted)
  }

  function Apply(s: State, e: Event): State
    requires Possible(s, e)
  {
    match e
    case SetId(id) => s.(id := id)
    case Retry => s.(shown := s.shown.(retrying := true), requestGeneration := s.requestGeneration + 1)
    case Commit => RunEffect(Cleanup(s, |s.generations| - 1))
    case Unmount => Cleanup(s, |s.generations| - 1).(mounted := false)
    case Fire(timer) => StartLoad(s.(timers := s.timers - {timer}), s.timers[timer])
    case Settle(request, outcome) =>
      var g := s.requests[request].generation;
      Finally(Resume(s.(requests := s.requests - {request}), g, outcome), g)
  }

  // ----------------------------------------------------------------- invariant

  ghost predicate Waiting(s: State, g: nat) {
    exists r :: r in s.requests && s.requests[r].generation == g
  }

  ghost predicate Armed(s: State, g: nat) {
    exists t :: t in s.timers && s.timers[t] == g
  }

  // Exactly the last generation is live, and only while mounted.
  ghost predicate LivesOk(s: State) {
    && s.generations != []
    && forall g :: 0 <= g < |s.generations| ==>
         (s.generations[g].active <==> s.mounted && g == |s.generations| - 1)
  }

  ghost predicate RequestsOk(s: State) {
    && (forall r :: r in s.requests ==>
          && r < s.issued && s.requests[r].generation < |s.generations|
          && s.generations[s.requests[r].generation].controller == Some(r)
          && (s.requests[r].aborted <==> !s.generations[s.requests[r].generation].active))
    && (forall g :: 0 <= g < |s.generations| ==>
          && (s.generations[g].inFlight <==> s.generations[g].controller.Some?)
          && (s.generations[g].controller.Some? ==>
                && s.generations[g].controller.value in s.requests
                && s.requests[s.generations[g].controller.value].generation == g))
  }

  ghost predicate TimersOk(s: State) {
    forall t :: t in s.timers ==>
      && t < s.issued && s.timers[t] < |s.generations|
      && s.generations[s.timers[t]].active && s.generations[s.timers[t]].timer == Some(t)
  }

  predicate Pending(s: State, g: nat)
    requires g < |s.generations|
  {
    s.generations[g].timer.Some? && s.generations[g].timer.value in s.timers
  }

  // A live generation waits for an answer, or for its timer, or has stopped.
  ghost predicate RestOk(s: State) {
    s.generations != [] && s.mounted ==>
      var g := |s.generations| - 1;
      var gen := s.generations[g];
      && (gen.last.None? ==> gen.inFlight && !Pending(s, g))
      && (gen.last.Some? && Continues(gen.last.value) ==> (gen.inFlight <==> !Pending(s, g)))
      && (gen.last.Some? && !Continues(gen.last.value) ==> !gen.inFlight && !Pending(s, g))
      && (gen.last.Some? ==> !gen.last.value.AbortError?)
  }

  // What is shown is what the live generation was last told.
  ghost predicate ShownOk(s: State) {
    s.generations != [] && s.mounted ==>
      var gen := s.generations[|s.generations| - 1];
      && (gen.request <= s.requestGeneration)
      && (gen.last.Some? ==>
            && !s.shown.loading
            && (gen.last.value.Got? ==> s.shown.scan == Some(gen.last.value.scan) && s.shown.error.None?)
            && (!gen.last.value.Got? ==>
                  s.shown.error == Some(if gen.last.value.ApiError? then gen.last.value.status else 0))
            && (Temporary(gen.last.value) ==> s.shown.retrying)
            && (gen.request == s.requestGeneration && s.shown.retrying ==> Temporary(gen.last.value)))
  }

  ghost predicate Ok(s: State) {
    LivesOk(s) && RequestsOk(s) && TimersOk(s) && RestOk(s) && ShownOk(s)
  }

  lemma MountedOk(id: ScanId)
    ensures Ok(Mounted(id))
  {}

  lemma EffectOk(s: State)
    requires s.mounted && RequestsOk(s) && TimersOk(s)
    requires forall g :: 0 <= g < |s.generations| ==> !s.generations[g].active
    ensures Ok(RunEffect(s))
  {
    var t := RunEffect(s);
    assert forall g :: 0 <= g < |s.generations| ==> t.generations[g] == s.generations[g];
    assert s.issued !in s.requests;
  }

  lemma CleanupRequests(s: State)
    requires RequestsOk(s) && LivesOk(s) && s.mounted
    ensures RequestsOk(Cleanup(s, |s.generations| - 1))
  {
    var last := |s.generations| - 1;
    var t := Cleanup(s, last);
    assert forall g :: 0 <= g < last ==> t.generations[g] == s.generations[g];
    assert t.generations[last].controller == s.generations[last].controller;
  }

  lemma CleanupOk(s: State)
    requires Ok(s) && s.mounted
    ensures var t := Cleanup(s, |s.generations| - 1);
      && RequestsOk(t) && TimersOk(t)
      && (forall g :: 0 <= g < |t.generations| ==> !t.generations[g].active)
  {
    hide RequestsOk, RestOk, ShownOk;
    var last := |s.generations| - 1;
    CleanupRequests(s);
    var t := Cleanup(s, last);
    assert forall g :: 0 <= g < last ==> t.generations[g] == s.generations[g];
  }

  lemma FireOk(s: State, timer: nat)
    requires Ok(s) && Possible(s, Fire(timer))
    ensures Ok(Apply(s, Fire(timer)))
  {
    var t := Apply(s, Fire(timer));
    var g := s.timers[timer];
    assert g == |s.generations| - 1 && Pending(s, g) && !s.generations[g].inFlight;
    assert forall k :: 0 <= k < g ==> t.generations[k] == s.generations[k];
  }

  // A live generation that is answered keeps its place and gives up its request.
  lemma ResumeLiveRequests(s: State, request: nat, o: Outcome)
    requires RequestsOk(s) && Possible(s, Settle(request, o)) && s.generations[s.requests[request].generation].active
    ensures RequestsOk(Apply(s, Settle(request, o)))
  {
    var t := Apply(s, Settle(request, o));
    var g := s.requests[request].generation;
    assert forall k :: 0 <= k < |s.generations| && k != g ==> t.generations[k] == s.generations[k];
    assert t.generations[g].controller.None? && t.generations[g].active;
  }

  lemma ResumeLiveTimers(s: State, request: nat, o: Outcome)
    requires TimersOk(s) && RestOk(s) && LivesOk(s) && RequestsOk(s)
    requires Possible(s, Settle(request, o)) && s.generations[s.requests[request].generation].active
    ensures TimersOk(Apply(s, Settle(request, o)))
  {
    var t := Apply(s, Settle(request, o));
    var g := s.requests[request].generation;
    assert g == |s.generations| - 1 && !Pending(s, g);
    assert forall k :: 0 <= k < |s.generations| && k != g ==> t.generations[k] == s.generations[k];
  }

  lemma ResumeLiveRest(s: State, request: nat, o: Outcome)
    requires TimersOk(s) && RestOk(s) && LivesOk(s) && RequestsOk(s) && ShownOk(s)
    requires Possible(s, Settle(request, o)) && s.generations[s.requests[request].generation].active
    ensures RestOk(Apply(s, Settle(request, o))) && ShownOk(Apply(s, Settle(request, o)))
    ensures LivesOk(Apply(s, Settle(request, o)))
  {
    var t := Apply(s, Settle(request, o));
    var g := s.requests[request].generation;
    assert g == |s.generations| - 1 && !o.AbortError? && !Pending(s, g);
    assert forall k :: 0 <= k < g ==> t.generations[k] == s.generations[k];
  }

  lemma ResumeLive(s: State, request: nat, o: Outcome)
    requires Ok(s) && Possible(s, Settle(request, o)) && s.generations[s.requests[request].generation].active
    ensures Ok(Apply(s, Settle(request, o)))
  {
    hide LivesOk, RequestsOk, TimersOk, RestOk, ShownOk, Apply, Possible;
    ResumeLiveRequests(s, request, o);
    ResumeLiveTimers(s, request, o);
    ResumeLiveRest(s, request, o);
  }

  lemma ResumeDead(s: State, request: nat, o: Outcome)
    requires Ok(s) && Possible(s, Settle(request, o)) && !s.generations[s.requests[request].generation].active
    ensures Ok(Apply(s, Settle(request, o)))
  {
    var t := Apply(s, Settle(request, o));
    var g := s.requests[request].generation;
    assert forall k :: 0 <= k < |s.generations| && k != g ==> t.generations[k] == s.generations[k];
  }

  lemma StepOk(s: State, e: Event)
    requires Ok(s) && Possible(s, e)
    ensures Ok(Apply(s, e))
  {
    match e
    case SetId(id) =>
    case Retry =>
    case Commit =>
      CleanupOk(s);
      EffectOk(Cleanup(s, |s.generations| - 1));
    case Unmount =>
      CleanupOk(s);
    case Fire(timer) =>
      FireOk(s, timer);
    case Settle(request, o) =>
      if s.generations[s.requests[request].generation].active {
        ResumeLive(s, request, o);
      } else {
        ResumeDead(s, request, o);
      }
  }

  // ---------------------------------------------------------------- all runs

  ghost predicate Run(states: seq<State>, events: seq<Event>) {
    && |states| == |events| + 1
    && (forall i :: 0 <= i < |events| ==>
          Possible(states[i], events[i]) && states[i + 1] == Apply(states[i], events[i]))
  }

  lemma {:induction false} RunOk(states: seq<State>, events: seq<Event>, id: ScanId, n: nat)
    requires Run(states, events) && states[0] == Mounted(id) && n <= |events|
    ensures Ok(states[n])
  {
    hide Ok, Apply, Possible;
    if n == 0 {
      MountedOk(id);
    } else {
      RunOk(states, events, id, n - 1);
      StepOk(states[n - 1], events[n - 1]);
    }
  }

  // At most one generation is live, the last one, and none after unmounting;
  // and at most one request that nobody has aborted is on its way.
  lemma OneLiveGeneration(states: seq<State>, events: seq<Event>, id: ScanId, n: nat)
    requires Run(states, events) && states[0] == Mounted(id) && n <= |events|
    ensures var s := states[n];
      && (forall g :: 0 <= g < |s.generations| ==>
            (s.generations[g].active <==> s.mounted && g == |s.generations| - 1))
      && (forall a, b ::
            a in s.requests && b in s.requests && !s.requests[a].aborted && !s.requests[b].aborted ==> a == b)
      && (forall a, b :: a in s.timers && b in s.timers ==> a == b)
  {
    hide RestOk, ShownOk, Apply, Possible;
    RunOk(states, events, id, n);
  }

  // What the caller of the hook sees of it: nothing told yet, a scan that is
  // queued, accepted or running, a server that could not answer or asked to wait,
  // or no answer at all.
  predicate GoesOn(last: Option<Outcome>) {
    match last
    case None => true
    case Some(Got(scan)) => scan.status != Completed && scan.status != Failed && scan.status != Blocked
    case Some(ApiError(status)) => status in {0, 408, 429} || status >= 500
    case Some(OtherError) => true
    case Some(AbortError) => false
  }

  // While the live generation has not been told to stop, either its request is
  // on the way or its timer is armed, never both; once told to stop, neither.
  lemma WaitingOrArmed(states: seq<State>, events: seq<Event>, id: ScanId, n: nat)
    requires Run(states, events) && states[0] == Mounted(id) && n <= |events| && states[n].mounted
    ensures states[n].generations != []
    ensures var s, g := states[n], |states[n].generations| - 1;
      if GoesOn(s.generations[g].last) then Waiting(s, g) <==> !Armed(s, g)
      else !Waiting(s, g) && !Armed(s, g)
  {
    hide ShownOk, Apply, Possible;
    RunOk(states, events, id, n);
    var s, g := states[n], |states[n].generations| - 1;
    assert s.generations[g].active;
    if s.generations[g].inFlight {
      assert s.generations[g].controller.value in s.requests;
    }
    if Pending(s, g) {
      assert s.timers[s.generations[g].timer.value] == g;
    }
  }

  // A dead generation never writes: whatever its timers and requests still do,
  // what is shown stays, and it starts no request and no timer.
  lemma DeadGenerationsAreSilent(states: seq<State>, events: seq<Event>, id: ScanId, n: nat)
    requires Run(states, events) && states[0] == Mounted(id) && n < |events|
    requires events[n].Settle? && !states[n].generations[states[n].requests[events[n].request].generation].active
    ensures states[n + 1].shown == states[n].shown
    ensures states[n + 1].timers == states[n].timers && states[n + 1].issued == states[n].issued
    ensures states[n + 1].requests == states[n].requests - {events[n].request}
  {}

  // Dead generations have no timers left, so a timer that fires always belongs
  // to the live one and always starts its next request.
  lemma FiringAsksAgain(states: seq<State>, events: seq<Event>, id: ScanId, n: nat)
    requires Run(states, events) && states[0] == Mounted(id) && n < |events| && events[n].Fire?
    ensures states[n].mounted && states[n].timers[events[n].timer] == |states[n].generations| - 1
    ensures states[n].issued !in states[n].requests
    ensures states[n + 1].requests
      == states[n].requests[states[n].issued := Request(|states[n].generations| - 1, false)]
  {
    hide ShownOk;
    RunOk(states, events, id, n);
    assert Pending(states[n], states[n].timers[events[n].timer]);
  }

  predicate Stopped(s: State) {
    && s.mounted && s.generations != [] && !Stale(s)
    && var last := s.generations[|s.generations| - 1].last;
       last.Some? && !Continues(last.value)
  }

  lemma TimersAreLive(s: State)
    requires LivesOk(s) && TimersOk(s)
    ensures forall t :: t in s.timers ==>
      s.mounted && s.timers[t] == |s.generations| - 1 && Pending(s, |s.generations| - 1)
  {
    forall t | t in s.timers
      ensures s.mounted && s.timers[t] == |s.generations| - 1 && Pending(s, |s.generations| - 1)
    {
      assert s.generations[s.timers[t]].active;
    }
  }

  lemma StoppedStays(s: State, e: Event)
    requires Ok(s) && Possible(s, e) && Stopped(s) && !e.SetId? && !e.Retry?
    ensures Apply(s, e).issued == s.issued && Apply(s, e).shown == s.shown
    ensures Stopped(Apply(s, e)) || (e == Unmount && !Apply(s, e).mounted)
  {
    hide ShownOk;
    TimersAreLive(s);
    if e.Settle? {
      assert s.requests[e.request].generation != |s.generations| - 1;
    }
  }

  lemma UnmountedStays(s: State, e: Event)
    requires Ok(s) && Possible(s, e) && !s.mounted
    ensures Apply(s, e).issued == s.issued && Apply(s, e).shown == s.shown && !Apply(s, e).mounted
  {
    hide RestOk, ShownOk;
    TimersAreLive(s);
  }

  lemma StoppedIs(s: State)
    requires Ok(s) && s.mounted && s.generations != []
    ensures var gen := s.generations[|s.generations| - 1];
      Stopped(s) <==> gen.id == s.id && gen.request == s.requestGeneration && !GoesOn(gen.last)
  {
    hide LivesOk, RequestsOk, TimersOk, ShownOk;
  }

  lemma StoppedHasNoTimers(s: State)
    requires Ok(s) && Stopped(s)
    ensures s.timers == map[]
  {
    hide ShownOk;
    TimersAreLive(s);
  }

  lemma UnmountedHasNoTimers(s: State)
    requires Ok(s) && !s.mounted
    ensures s.timers == map[]
  {
    hide RestOk, ShownOk;
    TimersAreLive(s);
  }

  // A terminal status or a permanent failure ends the requests, and changes
  // nothing more on the screen, until a retry or another id.
  lemma {:induction false} StopsUntilAsked(states: seq<State>, events: seq<Event>, id: ScanId, i: nat, n: nat)
    requires Run(states, events) && states[0] == Mounted(id) && i <= n <= |events|
    requires states[i].mounted && states[i].generations != []
    requires var gen := states[i].generations[|states[i].generations| - 1];
      gen.id == states[i].id && gen.request == states[i].requestGeneration && !GoesOn(gen.last)
    requires forall k :: i <= k < n ==> !events[k].SetId? && !events[k].Retry?
    ensures states[n].issued == states[i].issued && states[n].shown == states[i].shown
    ensures states[n].timers == map[]
    ensures Stopped(states[n]) || !states[n].mounted
  {
    hide Ok, Apply, Possible, Stopped;
    RunOk(states, events, id, n);
    if n == i {
      StoppedIs(states[i]);
      StoppedHasNoTimers(states[i]);
    } else {
      StopsUntilAsked(states, events, id, i, n - 1);
      RunOk(states, events, id, n - 1);
      if Stopped(states[n - 1]) {
        StoppedStays(states[n - 1], events[n - 1]);
      } else {
        UnmountedStays(states[n - 1], events[n - 1]);
      }
      if Stopped(states[n]) {
        StoppedHasNoTimers(states[n]);
      } else {
        UnmountedHasNoTimers(states[n]);
      }
    }
  }

  // What is on the screen is the last thing the live generation was told.
  lemma ShownIsLastTold(states: seq<State>, events: seq<Event>, id: ScanId, n: nat)
    requires Run(states, events) && states[0] == Mounted(id) && n <= |events| && states[n].mounted
    ensures states[n].generations != []
    ensures var s, gen := states[n], states[n].generations[|states[n].generations| - 1];
      gen.last.Some? ==>
        && !s.shown.loading
        && (gen.last.value.Got? ==> s.shown.scan == Some(gen.last.value.scan) && s.shown.error.None?)
        && (gen.last.value.ApiError? ==> s.shown.error == Some(gen.last.value.status))
        && (gen.last.value.OtherError? ==> s.shown.error == Some(0))
        && (gen.id == s.id && gen.request == s.requestGeneration ==>
              (s.shown.retrying <==> !gen.last.value.Got? && GoesOn(gen.last)))
  {
    hide RestOk, RequestsOk, TimersOk, Apply, Possible;
    RunOk(states, events, id, n);
  }
}
