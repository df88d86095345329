// The hook of frontend/hooks/use-scan-detail.ts as its callbacks run: variables
// reassigned step by step. Each callback does what PollingHook says, keeps the
// invariant proved there, and what follows from the invariant is stated of it.
module PollingHookObject {
  import opened Collections
  import opened PollingHook

  lemma ResumeKeepsLength(s: State, g: nat, o: Outcome)
    requires g < |s.generations|
    ensures |Resume(s, g, o).generations| == |s.generations|
  {}

  // ------------------------------------ what the invariant says of each callback

  lemma NoTimers(s: State)
    requires LivesOk(s) && TimersOk(s)
    requires s.generations != [] && s.mounted ==> !Pending(s, |s.generations| - 1)
    ensures s.timers == map[]
  {
    TimersAreLive(s);
  }

  lemma SettledLeaves(s: State, request: nat, o: Outcome)
    requires Ok(s) && Possible(s, Settle(request, o)) && Ok(Apply(s, Settle(request, o)))
    ensures var t, live := Apply(s, Settle(request, o)), s.generations[s.requests[request].generation].active;
      && (!live ==> t.shown == s.shown && t.timers == s.timers && t.issued == s.issued)
      && (live && !Continues(o) ==> t.timers == map[])
  {
    hide ShownOk;
    var t := Apply(s, Settle(request, o));
    var g := s.requests[request].generation;
    if s.generations[g].active && !Continues(o) {
      assert t.generations[g].last == Some(o) && g == |t.generations| - 1;
      NoTimers(t);
    }
  }

  lemma FiredAsks(s: State, timer: nat)
    requires Ok(s) && Possible(s, Fire(timer))
    ensures var t := Apply(s, Fire(timer));
      t.timers == map[] && t.requests == s.requests[s.issued := Request(|t.generations| - 1, false)]
  {
    hide ShownOk;
    TimersAreLive(s);
    assert !s.generations[|s.generations| - 1].inFlight;
    assert forall t :: t in s.timers ==> t == timer;
  }

  lemma CommittedAsks(s: State)
    requires Ok(s) && Possible(s, Commit) && Ok(Apply(s, Commit))
    ensures var t := Apply(s, Commit);
      && |t.generations| == |s.generations| + 1 && t.timers == map[] && t.shown == s.shown
      && var gen := t.generations[|t.generations| - 1];
         gen.active && gen.inFlight && gen.id == t.id && gen.request == t.requestGeneration
  {
    hide ShownOk;
    NoTimers(Apply(s, Commit));
  }

  lemma UnmountedRests(s: State)
    requires Ok(s) && Possible(s, Unmount) && Ok(Apply(s, Unmount))
    ensures var t := Apply(s, Unmount);
      t.timers == map[] && t.shown == s.shown && forall g :: 0 <= g < |t.generations| ==> !t.generations[g].active
  {
    hide ShownOk, RestOk;
    NoTimers(Apply(s, Unmount));
  }

  class Hook {
    var mounted: bool
    var id: ScanId
    var requestGeneration: nat
    var shown: Shown
    var generations: seq<Generation>
    var timers: map<nat, nat>
    var requests: map<nat, Request>
    var issued: nat

    function AsState(): State
      reads this
    {
      State(mounted, id, requestGeneration, shown, generations, timers, requests, issued)
    }

    constructor (id: ScanId)
      ensures AsState() == Mounted(id) && Ok(AsState())
    {
      this.mounted, this.id, this.requestGeneration := true, id, 0;
      this.shown := Shown(None, true, None, false);
      this.generations, this.timers, this.requests, this.issued := [], map[], map[], 0;
      new;
      Effect();
      MountedOk(id);
    }

    method Effect()
      modifies this
      ensures AsState() == RunEffect(old(AsState()))
    {
      generations := generations + [Generation(id, requestGeneration, true, false, None, None, None)];
      Load(|generations| - 1);
    }

    // load, up to the await.
    method Load(g: nat)
      requires g < |generations|
      modifies this
      ensures AsState() == StartLoad(old(AsState()), g)
    {
      var gen := generations[g];
      if !gen.active || gen.inFlight {
        return;
      }
      gen := gen.(inFlight := true);
      gen := gen.(controller := Some(issued));
      generations := generations[g := gen];
      requests := requests[issued := Request(g, false)];
      issued := issued + 1;
    }

    method SetTimer(g: nat)
      requires g < |generations|
      modifies this
      ensures AsState() == Schedule(old(AsState()), g)
    {
      generations := generations[g := generations[g].(timer := Some(issued))];
      timers := timers[issued := g];
      issued := issued + 1;
    }

    // load, from the await to its finally block.
    method Continue(g: nat, outcome: Outcome)
      requires g < |generations|
      modifies this
      ensures AsState() == Resume(old(AsState()), g, outcome)
    {
      if !generations[g].active || outcome.AbortError? {
        return;
      }
      generations := generations[g := generations[g].(last := Some(outcome))];
      if outcome.Got? {
        shown := shown.(scan := Some(outcome.scan));
        shown := shown.(error := None);
        shown := shown.(loading := false);
        shown := shown.(retrying := false);
        if ActiveStatus(outcome.scan.status) {
          SetTimer(g);
        }
      } else {
        var temporary := Temporary(outcome);
        shown := shown.(error := Some(if outcome.ApiError? then outcome.status else 0));
        shown := shown.(loading := false);
        shown := shown.(retrying := temporary);
        if temporary {
          SetTimer(g);
        }
      }
    }

    // A dead generation shows nothing and schedules nothing; a live one whose
    // answer ends the polling has no timer left.
    method OnSettled(request: nat, outcome: Outcome)
      requires Ok(AsState()) && Possible(AsState(), Settle(request, outcome))
      modifies this
      ensures AsState() == Apply(old(AsState()), Settle(request, outcome)) && Ok(AsState())
      ensures !old(generations)[old(requests)[request].generation].active ==>
        shown == old(shown) && timers == old(timers) && issued == old(issued)
      ensures old(generations)[old(requests)[request].generation].active && !Continues(outcome) ==> timers == map[]
    {
      hide Resume, Ok;
      ghost var before := AsState();
      var g := requests[request].generation;
      requests := requests - {request};
      Continue(g, outcome);
      ResumeKeepsLength(before.(requests := before.requests - {request}), g, outcome);
      generations := generations[g := generations[g].(inFlight := false, controller := None)];
      StepOk(before, Settle(request, outcome));
      SettledLeaves(before, request, outcome);
    }

    // The timer that fires is the only one, and it always asks again.
    method OnTimer(timer: nat)
      requires Ok(AsState()) && Possible(AsState(), Fire(timer))
      modifies this
      ensures AsState() == Apply(old(AsState()), Fire(timer)) && Ok(AsState())
      ensures timers == map[] && requests == old(requests)[old(issued) := Request(|generations| - 1, false)]
    {
      hide Ok;
      ghost var before := AsState();
      FiredAsks(before, timer);
      var g := timers[timer];
      timers := timers - {timer};
      Load(g);
      StepOk(before, Fire(timer));
    }

    // The function that the effect returns.
    method CleanUp(g: nat)
      requires g < |generations|
      modifies this
      ensures AsState() == Cleanup(old(AsState()), g)
    {
      generations := generations[g := generations[g].(active := false)];
      var timer, controller := generations[g].timer, generations[g].controller;
      if timer.Some? {
        timers := timers - {timer.value};
      }
      if controller.Some? && controller.value in requests {
        requests := requests[controller.value := requests[controller.value].(aborted := true)];
      }
    }

    method OnRetry()
      requires Ok(AsState()) && Possible(AsState(), Retry)
      modifies this
      ensures AsState() == Apply(old(AsState()), Retry) && Ok(AsState())
      ensures shown.retrying && Possible(AsState(), Commit)
    {
      StepOk(AsState(), Retry);
      shown := shown.(retrying := true);
      requestGeneration := requestGeneration + 1;
    }

    method OnSetId(id: ScanId)
      requires Ok(AsState()) && Possible(AsState(), SetId(id))
      modifies this
      ensures AsState() == Apply(old(AsState()), SetId(id)) && Ok(AsState())
    {
      StepOk(AsState(), SetId(id));
      this.id := id;
    }

    // One new generation, live and asking, in place of the old one; no timer.
    method OnCommit()
      requires Ok(AsState()) && Possible(AsState(), Commit)
      modifies this
      ensures AsState() == Apply(old(AsState()), Commit) && Ok(AsState())
      ensures |generations| == old(|generations|) + 1 && timers == map[] && shown == old(shown)
      ensures var gen := generations[|generations| - 1];
        gen.active && gen.inFlight && gen.id == id && gen.request == requestGeneration
    {
      hide Ok;
      ghost var before := AsState();
      CleanUp(|generations| - 1);
      Effect();
      StepOk(before, Commit);
      CommittedAsks(before);
    }

    method OnUnmount()
      requires Ok(AsState()) && Possible(AsState(), Unmount)
      modifies this
      ensures AsState() == Apply(old(AsState()), Unmount) && Ok(AsState())
      ensures timers == map[] && shown == old(shown)
      ensures forall g :: 0 <= g < |generations| ==> !generations[g].active
    {
      hide Ok;
      ghost var before := AsState();
      CleanUp(|generations| - 1);
      mounted := false;
      StepOk(before, Unmount);
      UnmountedRests(before);
    }
  }
}
