// What the scanner's own validation adds: with every create message answered as
// createScanHandler's checks decide, nothing the scanner ever dials is blocked.
module ProtocolDials {
  import opened Collections
  import opened ScanTasks
  import opened ScanRecords
  import opened DispatchProtocol
  import opened ProtocolInvariant
  import opened ProtocolQuiet
  import opened ProtocolSafety
  import opened ProtocolContact
  import opened BlockedAddresses
  import Pins = PinValidation
  import Go = GoEngine

  // The scanner's configuration, and the library calls whose answers do not
  // change; what a name resolves to does.
  datatype Policy = Policy(
    allowPrivate: bool,
    allowed: seq<string>,
    parse: string -> Option<IP>,
    lower: string -> string)

  type Lookup = string -> Option<seq<Option<IP>>>

  function LibraryOf(policy: Policy, lookup: Lookup): Pins.Library {
    Pins.Library(policy.parse, policy.lower, lookup)
  }

  // What Pins.CheckTarget lets through.
  ghost predicate Passes(policy: Policy, lookup: Lookup, config: ScanConfig) {
    var lib := LibraryOf(policy, lookup);
    && Pins.Accepted(config.request.target, config.pins, policy.allowPrivate, policy.allowed, lib)
    && Pins.Current(Pins.TrimSpace(config.request.target), config.pins, lib)
  }

  predicate LetThrough(s: System, a: Action) {
    a.Happen? && a.event.HandleCreate? && a.event.verdict.None? && a.event.token in s.sent
  }

  // No message is let through but by these checks, made with what names resolve
  // to at that moment.
  ghost predicate Checked(policy: Policy, lookups: nat -> Lookup, states: seq<System>, actions: seq<Action>) {
    forall m: nat :: m < |actions| && m < |states| && LetThrough(states[m], actions[m]) ==>
      Passes(policy, lookups(m), states[m].sent[actions[m].event.token].config)
  }

  lemma PinIsUnblocked(policy: Policy, lookup: Lookup, config: ScanConfig, address: Address)
    requires Passes(policy, lookup, config) && address in config.pins
    ensures policy.parse(address).Some? && !Reserved(policy.parse(address).value, policy.allowPrivate)
  {
    hide Pins.TargetIdentity, Pins.MatchesTarget, Blocked, Reserved, Pins.TrimSpace, Pins.Current, Pins.Form;
    var k :| 0 <= k < |config.pins| && config.pins[k] == address;
    assert Pins.PinFailure(config.pins, k, policy.allowPrivate, LibraryOf(policy, lookup)) == None;
    BlockedIsReserved(policy.parse(address).value, policy.allowPrivate);
  }

  // Something that the name resolved to, or a pin, is among the others.
  ghost predicate Among(ip: Option<IP>, ips: seq<Option<IP>>) {
    exists k :: 0 <= k < |ips| && Pins.Form(ips[k]) == Pins.Form(ip)
  }

  lemma FormsAmong(left: seq<Option<IP>>, right: seq<Option<IP>>)
    requires Elements(Pins.Forms(left)) <= Elements(Pins.Forms(right))
    ensures forall i :: 0 <= i < |left| ==> Among(left[i], right)
  {
    hide Pins.Form;
    forall i | 0 <= i < |left| ensures Among(left[i], right) {
      assert Pins.Forms(left)[i] in Elements(Pins.Forms(right));
      var k :| 0 <= k < |right| && Pins.Forms(right)[k] == Pins.Forms(left)[i];
    }
  }

  // A name that passes resolved to as many addresses as were pinned, each of
  // them pinned, and to each that was pinned.
  lemma NamesResolve(policy: Policy, lookup: Lookup, config: ScanConfig)
    requires Passes(policy, lookup, config) && policy.parse(Pins.TrimSpace(config.request.target)).None?
    ensures var answer := lookup(Pins.TrimSpace(config.request.target));
      && answer.Some? && |answer.value| == |config.pins|
      && (forall i :: 0 <= i < |answer.value| ==>
            answer.value[i].Some?
            && exists k ::
                 0 <= k < |config.pins| && Pins.Form(policy.parse(config.pins[k])) == Pins.Form(answer.value[i]))
      && (forall k :: 0 <= k < |config.pins| ==> Among(policy.parse(config.pins[k]), answer.value))
  {
    hide Pins.Accepted, Pins.TrimSpace, Pins.Form, Pins.Forms;
    var answer := lookup(Pins.TrimSpace(config.request.target)).value;
    var pins := Pins.Parsed(config.pins, LibraryOf(policy, lookup));
    assert Pins.SameAddresses(pins, answer);
    if |answer| != |pins| {
      Pins.UnequalSizes(pins, answer);
    }
    FormsAmong(pins, answer);
    FormsAmong(answer, pins);
    forall i | 0 <= i < |answer|
      ensures exists k :: 0 <= k < |config.pins| && Pins.Form(policy.parse(config.pins[k])) == Pins.Form(answer[i])
    {
      assert Among(answer[i], pins);
      var k :| 0 <= k < |pins| && Pins.Form(pins[k]) == Pins.Form(answer[i]);
      assert Pins.Form(policy.parse(config.pins[k])) == Pins.Form(answer[i]);
    }
    assert forall k :: 0 <= k < |config.pins| ==> pins[k] == policy.parse(config.pins[k]);
  }

  lemma DialledPin(env: Env, s: System, g: Id, address: Address)
    requires Inv(env, s) && (g, address) in s.dials
    ensures g in s.engine.origin && address in s.engine.origin[g].config.pins
  {
    hide Inv, JobsOk, Go.EngineOk, AttachmentOk, MessageOk, ReplyOk, OriginOk;
    LinksOf(env, s);
  }

  // Every address ever dialled lies outside the reserved ranges; and when its
  // scanner job was created, a name target resolved to exactly the pins.
  lemma EveryDialIsUnblocked(env: Env, states: seq<System>, actions: seq<Action>, n: nat, g: Id, address: Address,
                             policy: Policy, lookups: nat -> Lookup)
    returns (m: nat)
    requires Execution(env, states, actions) && Init(env, states[0]) && n <= |actions|
    requires Checked(policy, lookups, states, actions) && (g, address) in states[n].dials
    ensures policy.parse(address).Some? && !Reserved(policy.parse(address).value, policy.allowPrivate)
    ensures m < n && Creating(states, actions, m, g, states[n])
    ensures g in states[n].engine.origin && address in states[n].engine.origin[g].config.pins
    ensures Passes(policy, lookups(m), states[n].engine.origin[g].config)
    ensures var config := states[n].engine.origin[g].config;
      var name := Pins.TrimSpace(config.request.target);
      policy.parse(name).None? ==>
        && lookups(m)(name).Some? && |lookups(m)(name).value| == |config.pins|
        && forall i :: 0 <= i < |config.pins| ==> Among(policy.parse(config.pins[i]), lookups(m)(name).value)
  {
    hide Inv, Init, Enabled, Apply, Passes, Among, Pins.TrimSpace;
    ReachableOk(env, states, actions, n);
    DialledPin(env, states[n], g, address);
    m := EveryJobWasCreated(env, states, actions, n, g);
    var config := states[n].engine.origin[g].config;
    PinIsUnblocked(policy, lookups(m), config, address);
    if policy.parse(Pins.TrimSpace(config.request.target)).None? {
      NamesResolve(policy, lookups(m), config);
    }
  }
}
