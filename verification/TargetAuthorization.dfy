// ballerina-api/target_authorization.bal: the decision made under a dispatch
// lease and the addresses it pins.
module TargetAuthorization {
  import opened Collections
  import opened ScanTasks
  import Records = ScanRecords
  import Protocol = DispatchProtocol

  // What java.net.InetAddress says of one address. A missing host text is a
  // null string.
  datatype Inet = Inet(
    anyLocal: bool,
    loopback: bool,
    linkLocal: bool,
    siteLocal: bool,
    multicast: bool,
    host: Option<string>)

  // Foreign calls: string trimming, getAllByName with the host text of each
  // answer, and getByName.
  datatype Foreign = Foreign(
    trim: string -> string,
    allByName: string -> Option<seq<Option<string>>>,
    byName: string -> Option<Inet>)

  // The answers of the two rule queries.
  datatype Rules = Rules(
    inputIsAddress: string -> bool,
    network: string -> Option<Id>,
    named: string -> Option<Id>)

  datatype Outcome =
    | Authorized(rule: Id, normalizedTarget: string, resolvedAddresses: seq<Address>)
    | Blocked(matched: Option<Id>)

  function LowerAscii(s: string): string {
    seq(|s|, i requires 0 <= i < |s| => if 'A' <= s[i] <= 'Z' then (s[i] as int + 32) as char else s[i])
  }

  predicate StartsWith(s: string, head: string) {
    |head| <= |s| && s[..|head|] == head
  }

  predicate AddressIsSafe(address: Address, foreign: Foreign) {
    && foreign.byName(address).Some?
    && var parsed := foreign.byName(address).value;
       && !(parsed.anyLocal || parsed.loopback || parsed.linkLocal || parsed.siteLocal || parsed.multicast)
       && parsed.host.Some?
       && var normalized := LowerAscii(parsed.host.value);
          && !StartsWith(normalized, "fc") && !StartsWith(normalized, "fd")
          && normalized != "169.254.169.254" && normalized != "fd00:ec2::254"
  }

  // An address that Java places nowhere special, and whose text is neither a
  // unique-local one, in either case of letters, nor a metadata service's.
  predicate PublicAddress(address: Address, foreign: Foreign) {
    match foreign.byName(address)
    case None => false
    case Some(inet) =>
      && !inet.anyLocal && !inet.loopback && !inet.linkLocal && !inet.siteLocal && !inet.multicast
      && match inet.host
         case None => false
         case Some(text) =>
           && !(|text| >= 2 && text[0] in "fF" && text[1] in "cCdD")
           && text != "169.254.169.254"
  }

  lemma LoweredAt(s: string, i: nat)
    requires i < |s|
    ensures |LowerAscii(s)| == |s|
    ensures LowerAscii(s)[i] == if 'A' <= s[i] <= 'Z' then (s[i] as int + 32) as char else s[i]
  {}

  lemma StartsWithTwo(s: string, a: char, b: char)
    ensures StartsWith(s, [a, b]) <==> |s| >= 2 && s[0] == a && s[1] == b
  {
    assert |s| >= 2 ==> (s[..2] == [a, b] <==> s[..2][0] == a && s[..2][1] == b);
  }

  lemma LowersTo(s: string, plain: string)
    requires forall i :: 0 <= i < |plain| ==> !('A' <= plain[i] <= 'Z') && !('a' <= plain[i] <= 'z')
    ensures LowerAscii(s) == plain <==> s == plain
  {
    if LowerAscii(s) == plain {
      forall i | 0 <= i < |s| ensures s[i] == plain[i] {
        LoweredAt(s, i);
      }
    }
    if s == plain {
      forall i | 0 <= i < |s| ensures LowerAscii(s)[i] == plain[i] {
        LoweredAt(s, i);
      }
    }
  }

  lemma SafeIsPublic(address: Address, foreign: Foreign)
    ensures AddressIsSafe(address, foreign) <==> PublicAddress(address, foreign)
  {
    hide LowerAscii, StartsWith;
    if foreign.byName(address).Some? && foreign.byName(address).value.host.Some? {
      var text := foreign.byName(address).value.host.value;
      StartsWithTwo(LowerAscii(text), 'f', 'c');
      StartsWithTwo(LowerAscii(text), 'f', 'd');
      LowersTo(text, "169.254.169.254");
      if |text| >= 2 {
        LoweredAt(text, 0);
        LoweredAt(text, 1);
      }
      LowerLength(text);
      assert LowerAscii(text) == "fd00:ec2::254" ==> LowerAscii(text)[0] == 'f' && LowerAscii(text)[1] == 'd';
    }
  }

  lemma LowerLength(s: string)
    ensures |LowerAscii(s)| == |s|
  {}

  predicate AllAddressesSafe(addresses: seq<Address>, foreign: Foreign) {
    && 1 <= |addresses| <= MAXIMUM_TARGET_ADDRESSES
    && forall i :: 0 <= i < |addresses| ==> AddressIsSafe(addresses[i], foreign)
  }

  // The first occurrence of each text, in order.
  function Firsts(texts: seq<Option<string>>): seq<Address> {
    if texts == [] then []
    else
      var rest, last := Firsts(texts[..|texts| - 1]), texts[|texts| - 1];
      if last.None? || last.value in rest then rest else rest + [last.value]
  }

  predicate HasNull(texts: seq<Option<string>>) {
    exists i :: 0 <= i < |texts| && texts[i].None?
  }

  lemma {:induction false} FirstsAreDistinct(texts: seq<Option<string>>)
    ensures Distinct(Firsts(texts))
    ensures forall a :: a in Firsts(texts) <==> Some(a) in texts
  {
    if texts != [] {
      var rest := texts[..|texts| - 1];
      assert texts == rest + [texts[|texts| - 1]];
      FirstsAreDistinct(rest);
    }
  }

  // And they keep the order in which they were first named.
  lemma {:induction false} FirstsKeepOrder(texts: seq<Option<string>>, i: nat, j: nat) returns (p: nat, q: nat)
    requires i < j < |Firsts(texts)|
    ensures p < q < |texts| && texts[p] == Some(Firsts(texts)[i]) && texts[q] == Some(Firsts(texts)[j])
    ensures forall k :: 0 <= k < q ==> texts[k] != Some(Firsts(texts)[j])
  {
    var rest, last := texts[..|texts| - 1], texts[|texts| - 1];
    FirstsAreDistinct(rest);
    if j < |Firsts(rest)| {
      p, q := FirstsKeepOrder(rest, i, j);
    } else {
      q := |texts| - 1;
      assert Firsts(rest)[i] in Firsts(rest);
      assert Some(Firsts(rest)[i]) in rest;
      p :| 0 <= p < |rest| && rest[p] == Some(Firsts(rest)[i]);
      forall k | 0 <= k < q ensures texts[k] != Some(Firsts(texts)[j]) {
        assert texts[k] == rest[k] && rest[k] in rest;
      }
    }
  }

  lemma {:induction false} FirstsGrow(texts: seq<Option<string>>, n: nat)
    requires n <= |texts|
    ensures |Firsts(texts[..n])| <= |Firsts(texts)|
  {
    if n < |texts| {
      var rest := texts[..|texts| - 1];
      FirstsGrow(rest, n);
      assert rest[..n] == texts[..n];
    } else {
      assert texts[..n] == texts;
    }
  }

  // An error, or every address of the answer once. The limit counts different
  // addresses, so an answer that merely repeats itself is accepted.
  method ResolveAllAddresses(hostname: string, foreign: Foreign) returns (r: Option<seq<Address>>)
    ensures var answer := foreign.allByName(hostname);
      r == if answer.None? || HasNull(answer.value) || |Firsts(answer.value)| > MAXIMUM_TARGET_ADDRESSES
           then None else Some(Firsts(answer.value))
  {
    var answer := foreign.allByName(hostname);
    if answer.None? {
      return None;
    }
    var texts := answer.value;
    var addresses: seq<Address> := [];
    for index := 0 to |texts|
      invariant addresses == Firsts(texts[..index]) && |addresses| <= MAXIMUM_TARGET_ADDRESSES
      invariant !HasNull(texts[..index])
    {
      var possibleValue := texts[index];
      assert texts[..index + 1] == texts[..index] + [possibleValue];
      if possibleValue.None? {
        return None;
      }
      var value := possibleValue.value;
      if value !in addresses {
        addresses := addresses + [value];
        if |addresses| > MAXIMUM_TARGET_ADDRESSES {
          assert addresses == Firsts(texts[..index + 1]);
          FirstsGrow(texts, index + 1);
          return None;
        }
      }
    }
    assert texts[..|texts|] == texts;
    return Some(addresses);
  }

  predicate LowerLabelRune(c: char) {
    'a' <= c <= 'z' || '0' <= c <= '9' || c == '-'
  }

  // Labels of 1 to 63 lower-case letters, digits and inner hyphens, separated
  // by single dots.
  predicate ValidExactHostname(hostname: string) {
    && 1 <= |hostname| <= 253
    && forall i, j | 0 <= i <= |hostname| && i <= j <= |hostname| :: LabelAt(hostname, i, j) ==>
         && 1 <= j - i <= 63 && hostname[i] != '-' && hostname[j - 1] != '-'
         && forall k :: i <= k < j ==> LowerLabelRune(hostname[k])
  }

  // hostname[i..j] is a maximal stretch without a dot.
  predicate LabelAt(hostname: string, i: int, j: int) {
    && 0 <= i <= j <= |hostname|
    && (i == 0 || hostname[i - 1] == '.')
    && (j == |hostname| || hostname[j] == '.')
    && forall k :: i <= k < j ==> hostname[k] != '.'
  }

  lemma AllNamed(texts: seq<Option<string>>)
    requires !HasNull(texts)
    ensures Distinct(Firsts(texts))
    ensures forall text :: text in texts <==> text.Some? && text.value in Firsts(texts)
  {
    FirstsAreDistinct(texts);
    forall text | text in texts ensures text.Some? {
      var i :| 0 <= i < |texts| && texts[i] == text;
    }
  }

  // The rule is looked up before any name is resolved. Whatever DNS answers, a
  // grant pins one to sixteen different addresses, all of them safe; and a
  // refusal carries the rule that was found, if the target could have one.
  method AuthorizeScanTarget(requested: string, rules: Rules, foreign: Foreign) returns (outcome: Outcome)
    ensures outcome.Authorized? ==> Granted(foreign.trim(requested), outcome, rules, foreign)
    ensures outcome.Authorized? ==> ValidPins(outcome.resolvedAddresses)
    ensures outcome.Authorized? ==> forall a :: a in outcome.resolvedAddresses ==> PublicAddress(a, foreign)
    ensures outcome.Authorized? ==> var target := foreign.trim(requested);
      if rules.inputIsAddress(target)
      then rules.network(target) == Some(outcome.rule) && outcome.resolvedAddresses == [target]
      else
        && rules.named(LowerAscii(target)) == Some(outcome.rule)
        && foreign.allByName(LowerAscii(target)).Some?
        && forall text :: text in foreign.allByName(LowerAscii(target)).value <==>
             text.Some? && text.value in outcome.resolvedAddresses
    ensures var target := foreign.trim(requested);
      rules.inputIsAddress(target) && rules.network(target).Some? && PublicAddress(target, foreign) ==>
        outcome.Authorized?
    ensures outcome.Authorized? <==> exists o :: Granted(foreign.trim(requested), o, rules, foreign)
    ensures outcome.Blocked? ==> outcome.matched == RuleConsulted(foreign.trim(requested), rules)
  {
    hide AddressIsSafe, PublicAddress, LowerAscii, ValidExactHostname, Firsts, HasNull;
    forall a ensures AddressIsSafe(a, foreign) <==> PublicAddress(a, foreign) {
      SafeIsPublic(a, foreign);
    }
    var target := foreign.trim(requested);
    if rules.inputIsAddress(target) {
      var allowed := rules.network(target);
      if allowed.None? {
        return Blocked(None);
      }
      if !AllAddressesSafe([target], foreign) {
        return Blocked(allowed);
      }
      outcome := Authorized(allowed.value, target, [target]);
      assert Granted(target, outcome, rules, foreign);
      return;
    }
    var hostname := LowerAscii(target);
    if !ValidExactHostname(hostname) {
      return Blocked(None);
    }
    var allowed := rules.named(hostname);
    if allowed.None? {
      return Blocked(None);
    }
    var resolved := ResolveAllAddresses(hostname, foreign);
    if resolved.None? || !AllAddressesSafe(resolved.value, foreign) {
      return Blocked(allowed);
    }
    AllNamed(foreign.allByName(hostname).value);
    outcome := Authorized(allowed.value, hostname, resolved.value);
    assert Granted(target, outcome, rules, foreign);
  }

  function RuleFor(target: string, rules: Rules): Option<Id> {
    if rules.inputIsAddress(target) then rules.network(target) else rules.named(LowerAscii(target))
  }

  // The rule that was found by the time of a refusal: none is looked up for a
  // malformed name.
  function RuleConsulted(target: string, rules: Rules): Option<Id> {
    if rules.inputIsAddress(target) || ValidExactHostname(LowerAscii(target)) then RuleFor(target, rules) else None
  }

  // What a grant must be: an address is its own pin; a name is pinned to all of
  // its current addresses.
  ghost predicate Granted(target: string, outcome: Outcome, rules: Rules, foreign: Foreign) {
    && outcome.Authorized?
    && RuleFor(target, rules) == Some(outcome.rule)
    && AllAddressesSafe(outcome.resolvedAddresses, foreign)
    && if rules.inputIsAddress(target) then
         outcome.normalizedTarget == target && outcome.resolvedAddresses == [target]
       else
         && ValidExactHostname(LowerAscii(target))
         && outcome.normalizedTarget == LowerAscii(target)
         && foreign.allByName(LowerAscii(target)).Some?
         && !HasNull(foreign.allByName(LowerAscii(target)).value)
         && outcome.resolvedAddresses == Firsts(foreign.allByName(LowerAscii(target)).value)
  }

  // ------------------------------------------------------------- the rule queries

  // The part of a rule match that both queries share.
  predicate Usable(rule: Records.Rule, owner: Records.Subject, request: ScanRequest, at: Time) {
    && rule.enabled
    && (rule.expiresAt.None? || rule.expiresAt.value > at)
    && (rule.scope.Some? ==> rule.scope.value == owner)
    && (rule.ports.Some? ==> rule.ports.value.0 <= request.startPort && rule.ports.value.1 >= request.endPort)
  }

  // How the two queries are asked: for whom, for what and when, and which
  // networks contain which addresses, with which prefix length.
  datatype Asked = Asked(
    owner: Records.Subject,
    request: ScanRequest,
    at: Time,
    contains: (string, string) -> bool,
    maskLength: string -> int)

  predicate IsNetworkMatch(rule: Records.Rule, address: string, rules: Rules, asked: Asked) {
    && Usable(rule, asked.owner, asked.request, asked.at)
    && rule.target.Network? && rules.inputIsAddress(address) && asked.contains(rule.target.cidr, address)
  }

  predicate IsNameMatch(rule: Records.Rule, name: string, asked: Asked) {
    Usable(rule, asked.owner, asked.request, asked.at) && rule.target == Records.Hostname(name)
  }

  // The owner's own rules come first, then the longer prefixes.
  predicate Preferred(a: Records.Rule, b: Records.Rule, asked: Asked) {
    || (a.scope.Some? && b.scope.None?)
    || (a.scope.Some? == b.scope.Some? && a.target.Network? && b.target.Network?
        && asked.maskLength(a.target.cidr) >= asked.maskLength(b.target.cidr))
    || (a.scope.Some? == b.scope.Some? && a.target.Hostname? && b.target.Hostname?)
  }

  ghost predicate NetworkAnswer(table: map<Id, Records.Rule>, address: string, rules: Rules, asked: Asked) {
    var answer := rules.network(address);
    && (answer.Some? ==> answer.value in table && IsNetworkMatch(table[answer.value], address, rules, asked))
    && (forall id :: id in table && IsNetworkMatch(table[id], address, rules, asked) ==>
          answer.Some? && answer.value in table && Preferred(table[answer.value], table[id], asked))
  }

  ghost predicate NameAnswer(table: map<Id, Records.Rule>, name: string, rules: Rules, asked: Asked) {
    var answer := rules.named(name);
    && (answer.Some? ==> answer.value in table && IsNameMatch(table[answer.value], name, asked))
    && (forall id :: id in table && IsNameMatch(table[id], name, asked) ==>
          answer.Some? && answer.value in table && Preferred(table[answer.value], table[id], asked))
  }

  // The answers are those of the two queries over the rule table.
  ghost predicate Queried(table: map<Id, Records.Rule>, rules: Rules, asked: Asked) {
    && (forall address :: NetworkAnswer(table, address, rules, asked))
    && (forall name :: NameAnswer(table, name, rules, asked))
  }

  // Which targets a rule covers, as the two queries decide it.
  predicate QueryCovers(target: Records.RuleTarget, requested: string, rules: Rules, foreign: Foreign, asked: Asked) {
    var trimmed := foreign.trim(requested);
    match target
    case Hostname(name) => !rules.inputIsAddress(trimmed) && name == LowerAscii(trimmed)
    case Network(cidr) => rules.inputIsAddress(trimmed) && asked.contains(cidr, trimmed)
  }

  ghost predicate CoversAsQueried(env: Protocol.Env, rules: Rules, foreign: Foreign, asked: Asked) {
    forall target, requested :: env.covers(target, requested) == QueryCovers(target, requested, rules, foreign, asked)
  }

  // The rule is in the table and enabled, has not expired, is open to the owner,
  // allows all the ports asked for, and covers the target.
  ghost predicate Admits(env: Protocol.Env, table: map<Id, Records.Rule>, asked: Asked, id: Id) {
    && id in table && table[id].enabled
    && (table[id].expiresAt.Some? ==> asked.at < table[id].expiresAt.value)
    && (table[id].scope.Some? ==> table[id].scope.value == asked.owner)
    && (table[id].ports.Some? ==>
          table[id].ports.value.0 <= asked.request.startPort && asked.request.endPort <= table[id].ports.value.1)
    && env.covers(table[id].target, asked.request.target)
  }

  // A rule is found for a request exactly when the table holds one that admits
  // it, and the one found admits it.
  lemma RuleFoundIffAdmitted(env: Protocol.Env, table: map<Id, Records.Rule>, rules: Rules, foreign: Foreign,
                             asked: Asked)
    requires Queried(table, rules, asked) && CoversAsQueried(env, rules, foreign, asked)
    ensures var found := RuleFor(foreign.trim(asked.request.target), rules);
      && (found.Some? ==> Admits(env, table, asked, found.value))
      && (found.Some? <==> exists id :: Admits(env, table, asked, id))
    ensures forall id :: id in table ==>
      (Admits(env, table, asked, id)
       <==> Protocol.RuleAdmits(env, table[id], asked.owner, asked.request, asked.at))
  {
    var target := foreign.trim(asked.request.target);
    assert NetworkAnswer(table, target, rules, asked) && NameAnswer(table, LowerAscii(target), rules, asked);
    forall id | id in table ensures Admits(env, table, asked, id) <==>
      if rules.inputIsAddress(target) then IsNetworkMatch(table[id], target, rules, asked)
      else IsNameMatch(table[id], LowerAscii(target), asked)
    {
      assert env.covers(table[id].target, asked.request.target)
        == QueryCovers(table[id].target, asked.request.target, rules, foreign, asked);
    }
  }

  // Of the rules that admit the request, one of the owner's own is found if there
  // is one; and for an address, among those, one with the longest prefix.
  lemma OwnersRuleComesFirst(env: Protocol.Env, table: map<Id, Records.Rule>, rules: Rules, foreign: Foreign,
                             asked: Asked, id: Id)
    requires Queried(table, rules, asked) && CoversAsQueried(env, rules, foreign, asked)
    requires Admits(env, table, asked, id)
    ensures var found := RuleFor(foreign.trim(asked.request.target), rules);
      && found.Some? && found.value in table
      && var rule := table[found.value];
         && (table[id].scope.Some? ==> rule.scope == Some(asked.owner))
         && (rule.target.Network? <==> rules.inputIsAddress(foreign.trim(asked.request.target)))
         && (rule.target.Network? ==> table[id].target.Network?)
         && (rule.target.Network? && rule.scope.Some? == table[id].scope.Some? ==>
               asked.maskLength(rule.target.cidr) >= asked.maskLength(table[id].target.cidr))
  {
    hide Protocol.RuleAdmits;
    var target := foreign.trim(asked.request.target);
    RuleFoundIffAdmitted(env, table, rules, foreign, asked);
    assert NetworkAnswer(table, target, rules, asked) && NameAnswer(table, LowerAscii(target), rules, asked);
    assert env.covers(table[id].target, asked.request.target)
      == QueryCovers(table[id].target, asked.request.target, rules, foreign, asked);
  }

  // So a grant is a decision that the protocol's dispatcher may take.
  lemma GrantMeetsTheDispatcher(env: Protocol.Env, s: Protocol.System, pid: Id, rules: Rules, foreign: Foreign,
                                asked: Asked, outcome: Outcome)
    requires pid in s.procs && s.procs[pid].pc.DispatchAuthorize? && s.procs[pid].since <= asked.at <= s.clock
    requires asked.owner == s.procs[pid].owner && asked.request == s.procs[pid].request
    requires Queried(s.db.rules, rules, asked) && CoversAsQueried(env, rules, foreign, asked)
    requires Granted(foreign.trim(asked.request.target), outcome, rules, foreign)
    ensures Protocol.CanProceed(
      env, s, pid, Protocol.Authorize(Protocol.Grant(outcome.rule, outcome.resolvedAddresses), asked.at))
  {
    hide Queried, CoversAsQueried, Protocol.RuleAdmits, AddressIsSafe, ValidExactHostname;
    RuleFoundIffAdmitted(env, s.db.rules, rules, foreign, asked);
    GrantPinsAreValid(foreign.trim(asked.request.target), outcome, rules, foreign);
  }

  lemma GrantPinsAreValid(target: string, outcome: Outcome, rules: Rules, foreign: Foreign)
    requires Granted(target, outcome, rules, foreign)
    ensures ValidPins(outcome.resolvedAddresses)
  {
    hide AddressIsSafe, ValidExactHostname;
    if !rules.inputIsAddress(target) {
      FirstsAreDistinct(foreign.allByName(LowerAscii(target)).value);
    }
  }
}
