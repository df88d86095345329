// scanner-engine/internal/validation/validation.go: when a pinned address set is
// accepted, and when it still equals what the name resolves to.
module PinValidation {
  import opened Collections
  import opened ScanTasks
  import opened BlockedAddresses

  // -------------------------------------------------------------- same IP sets

  function Form(ip: Option<IP>): IP {
    if ip.Some? then Canonical(ip.value) else []
  }

  function Forms(ips: seq<Option<IP>>): seq<IP> {
    seq(|ips|, i requires 0 <= i < |ips| => Form(ips[i]))
  }

  predicate NoNil(ips: seq<Option<IP>>) {
    forall i :: 0 <= i < |ips| ==> ips[i].Some?
  }

  // A list that names each of its addresses once.
  predicate Clean(ips: seq<Option<IP>>) {
    NoNil(ips) && Distinct(Forms(ips))
  }

  ghost predicate SameAddresses(left: seq<Option<IP>>, right: seq<Option<IP>>) {
    Clean(left) && Clean(right) && Elements(Forms(left)) == Elements(Forms(right))
  }

  function Seen(ips: seq<Option<IP>>, n: nat): set<IP>
    requires n <= |ips|
  {
    Elements(Forms(ips)[..n])
  }

  lemma SeenNext(ips: seq<Option<IP>>, n: nat)
    requires n < |ips|
    ensures Seen(ips, n + 1) == Seen(ips, n) + {Form(ips[n])}
    ensures NoNil(ips[..n + 1]) <==> NoNil(ips[..n]) && ips[n].Some?
  {
    assert Forms(ips)[..n + 1] == Forms(ips)[..n] + [Form(ips[n])];
    assert ips[..n + 1] == ips[..n] + [ips[n]];
  }

  lemma SeenAll(ips: seq<Option<IP>>)
    ensures Seen(ips, |ips|) == Elements(Forms(ips)) && ips[..|ips|] == ips && Seen(ips, 0) == {}
  {
    assert Forms(ips)[..|ips|] == Forms(ips);
  }

  lemma UnequalSizes(left: seq<Option<IP>>, right: seq<Option<IP>>)
    requires |left| != |right|
    ensures !SameAddresses(left, right)
  {
    DistinctIffFull(Forms(left));
    DistinctIffFull(Forms(right));
  }

  // By pigeonhole, counting the entries of the two maps decides set equality.
  lemma CountingDecides(left: seq<Option<IP>>, right: seq<Option<IP>>)
    requires |left| == |right| && NoNil(left) && NoNil(right)
    requires Seen(right, |right|) <= Seen(left, |left|) && |Seen(left, |left|)| == |left|
    ensures SameAddresses(left, right) <==> |Seen(right, |right|)| == |right|
  {
    SeenAll(left);
    SeenAll(right);
    DistinctIffFull(Forms(left));
    DistinctIffFull(Forms(right));
    if |Seen(right, |right|)| == |right| {
      SubsetSize(Seen(right, |right|), Seen(left, |left|));
    }
  }

  lemma NotTheSame(left: seq<Option<IP>>, right: seq<Option<IP>>)
    ensures !NoNil(left) || !NoNil(right) || |Seen(left, |left|)| != |left| ==> !SameAddresses(left, right)
  {
    SeenAll(left);
    DistinctIffFull(Forms(left));
  }

  lemma Stranger(left: seq<Option<IP>>, right: seq<Option<IP>>, i: nat)
    requires i < |right| && Form(right[i]) !in Seen(left, |left|)
    ensures !SameAddresses(left, right)
  {
    SeenAll(left);
    assert Forms(right)[i] in Elements(Forms(right));
  }

  method SameIPSet(left: seq<Option<IP>>, right: seq<Option<IP>>) returns (same: bool)
    ensures same <==> SameAddresses(left, right)
  {
    hide SameAddresses, Seen, Form, Forms;
    SeenAll(left);
    SeenAll(right);
    NotTheSame(left, right);
    if |left| != |right| {
      UnequalSizes(left, right);
      return false;
    }
    var values := {};
    for i := 0 to |left|
      invariant NoNil(left[..i]) && values == Seen(left, i)
    {
      SeenNext(left, i);
      if left[i].None? {
        return false;
      }
      values := values + {Form(left[i])};
    }
    if |values| != |left| {
      return false;
    }
    var current := {};
    for i := 0 to |right|
      invariant NoNil(right[..i]) && current == Seen(right, i) <= values
    {
      SeenNext(right, i);
      if right[i].None? {
        return false;
      }
      var canonical := Form(right[i]);
      if canonical !in values {
        Stranger(left, right, i);
        return false;
      }
      current := current + {canonical};
    }
    CountingDecides(left, right);
    return |current| == |right|;
  }

  // The answer is blind to order and to which side is which, although the code
  // treats its two arguments differently.
  lemma SameAddressesUpToOrder(left: seq<Option<IP>>, right: seq<Option<IP>>, shuffled: seq<Option<IP>>)
    requires multiset(right) == multiset(shuffled)
    ensures SameAddresses(left, right) == SameAddresses(left, shuffled) == SameAddresses(shuffled, left)
  {
    CleanUpToOrder(right, shuffled);
    CleanUpToOrder(shuffled, right);
  }

  lemma CleanUpToOrder(ips: seq<Option<IP>>, shuffled: seq<Option<IP>>)
    requires multiset(ips) == multiset(shuffled)
    ensures Clean(ips) ==> Clean(shuffled)
    ensures Elements(Forms(ips)) == Elements(Forms(shuffled))
  {
    SameMembers(ips, shuffled);
    assert |multiset(ips)| == |ips| && |multiset(shuffled)| == |shuffled|;
    DistinctIffFull(Forms(ips));
    DistinctIffFull(Forms(shuffled));
    if NoNil(ips) {
      forall i | 0 <= i < |shuffled| ensures shuffled[i].Some? {
        assert shuffled[i] in ips;
      }
    }
  }

  lemma SameMembers(ips: seq<Option<IP>>, shuffled: seq<Option<IP>>)
    requires multiset(ips) == multiset(shuffled)
    ensures forall ip :: ip in ips <==> ip in shuffled
    ensures Elements(Forms(ips)) == Elements(Forms(shuffled))
  {
    forall ip ensures ip in ips <==> ip in shuffled {
      assert ip in multiset(ips) <==> ip in multiset(shuffled);
    }
    FormsSubset(ips, shuffled);
    FormsSubset(shuffled, ips);
  }

  lemma FormsSubset(ips: seq<Option<IP>>, others: seq<Option<IP>>)
    requires forall ip :: ip in ips ==> ip in others
    ensures Elements(Forms(ips)) <= Elements(Forms(others))
  {
    forall form | form in Elements(Forms(ips)) ensures form in Elements(Forms(others)) {
      var i :| 0 <= i < |ips| && Forms(ips)[i] == form;
      assert ips[i] in others;
      var j :| 0 <= j < |others| && others[j] == ips[i];
      assert Forms(others)[j] == form;
    }
  }

  // A DNS answer that repeats an address never matches, whatever is pinned.
  lemma RepeatedAnswerNeverMatches(pins: seq<Option<IP>>, answer: seq<Option<IP>>, i: nat, j: nat)
    requires i < j < |answer| && Form(answer[i]) == Form(answer[j])
    ensures !SameAddresses(pins, answer)
  {
    assert Forms(answer)[i] == Forms(answer)[j];
  }

  // ------------------------------------------------------------ pinned targets

  datatype TargetErrorKind = InvalidTarget | BlockedTarget
  datatype Result<T> = Ok(value: T) | Err(kind: TargetErrorKind)
  datatype ValidatedTarget = ValidatedTarget(original: string, ips: seq<IP>)

  // Library calls: net.ParseIP, strings.ToLower and net.LookupIP.
  datatype Library = Library(
    parse: string -> Option<IP>,
    lower: string -> string,
    lookup: string -> Option<seq<Option<IP>>>)

  const MAXIMUM_TARGET_LENGTH := 253

  // unicode.IsSpace.
  predicate IsSpace(c: char) {
    c in "\t\n\U{000B}\U{000C}\r \U{0085}\U{00A0}\U{1680}\U{2028}\U{2029}\U{202F}\U{205F}\U{3000}"
    || '\U{2000}' <= c <= '\U{200A}'
  }

  function TrimSpace(s: string): string {
    if s != "" && IsSpace(s[0]) then TrimSpace(s[1..])
    else if s != "" && IsSpace(s[|s| - 1]) then TrimSpace(s[..|s| - 1])
    else s
  }

  function TrimDot(s: string): string {
    if s != "" && s[|s| - 1] == '.' then s[..|s| - 1] else s
  }

  predicate IsAllowedTarget(target: string, allowed: seq<string>, lib: Library) {
    allowed == [] ||
    exists i :: 0 <= i < |allowed| && lib.lower(TrimDot(target)) == lib.lower(TrimDot(TrimSpace(allowed[i])))
  }

  function TargetIdentity(target: string, allowed: seq<string>, lib: Library): Option<TargetErrorKind> {
    if target == "" then Some(InvalidTarget)
    else if |target| > MAXIMUM_TARGET_LENGTH then Some(InvalidTarget)
    else if exists c :: c in " \t\r\n" && c in target then Some(InvalidTarget)
    else if !IsAllowedTarget(target, allowed, lib) then Some(BlockedTarget)
    else None
  }

  function Labels(host: string): seq<string> {
    if host == "" then [""]
    else
      var rest := Labels(host[1..]);
      if host[0] == '.' then [""] + rest else [[host[0]] + rest[0]] + rest[1..]
  }

  predicate HostnameRune(c: char) {
    'a' <= c <= 'z' || 'A' <= c <= 'Z' || '0' <= c <= '9' || c == '-'
  }

  predicate ValidLabel(piece: string) {
    && 1 <= |piece| <= 63
    && piece[0] != '-' && piece[|piece| - 1] != '-'
    && forall i :: 0 <= i < |piece| ==> HostnameRune(piece[i])
  }

  predicate ValidHostname(host: string) {
    && host != "" && |host| <= MAXIMUM_TARGET_LENGTH
    && !(exists c :: c in " /:\\" && c in host)
    && forall i :: 0 <= i < |Labels(host)| ==> ValidLabel(Labels(host)[i])
  }

  // What is wrong with the k-th pin, given the ones before it.
  function PinFailure(pins: seq<string>, k: nat, allowPrivate: bool, lib: Library): Option<TargetErrorKind>
    requires k < |pins|
  {
    var ip := lib.parse(pins[k]);
    if pins[k] != TrimSpace(pins[k]) || ip.None? then Some(InvalidTarget)
    else if Blocked(ip.value, allowPrivate) then Some(BlockedTarget)
    else if exists j :: 0 <= j < k && Form(lib.parse(pins[j])) == Form(ip) then Some(InvalidTarget)
    else None
  }

  predicate PinsAreFine(pins: seq<string>, allowPrivate: bool, lib: Library) {
    forall k :: 0 <= k < |pins| ==> PinFailure(pins, k, allowPrivate, lib) == None
  }

  predicate FirstFault(pins: seq<string>, k: nat, allowPrivate: bool, lib: Library) {
    && k < |pins| && PinFailure(pins, k, allowPrivate, lib).Some?
    && forall j :: 0 <= j < k ==> PinFailure(pins, j, allowPrivate, lib) == None
  }

  predicate MatchesTarget(target: string, pins: seq<string>, lib: Library) {
    if lib.parse(target).Some? then |pins| == 1 && Form(lib.parse(target)) == Form(lib.parse(pins[0]))
    else ValidHostname(target)
  }

  predicate Accepted(target: string, pins: seq<string>, allowPrivate: bool, allowed: seq<string>, lib: Library) {
    && TargetIdentity(TrimSpace(target), allowed, lib) == None
    && 1 <= |pins| <= MAXIMUM_TARGET_ADDRESSES
    && PinsAreFine(pins, allowPrivate, lib)
    && MatchesTarget(TrimSpace(target), pins, lib)
  }

  function Wrap(ips: seq<IP>): seq<Option<IP>> {
    seq(|ips|, i requires 0 <= i < |ips| => Some(ips[i]))
  }

  // Which pins are fine, and what is wrong with one that is not.
  lemma FinePins(pins: seq<string>, allowPrivate: bool, lib: Library)
    ensures PinsAreFine(pins, allowPrivate, lib) <==>
      && (forall i :: 0 <= i < |pins| ==>
            && pins[i] == TrimSpace(pins[i]) && lib.parse(pins[i]).Some?
            && !Reserved(lib.parse(pins[i]).value, allowPrivate))
      && (forall i, j :: 0 <= i < j < |pins| ==> Form(lib.parse(pins[i])) != Form(lib.parse(pins[j])))
    ensures forall k :: 0 <= k < |pins| ==>
      (PinFailure(pins, k, allowPrivate, lib) == Some(BlockedTarget) <==>
         pins[k] == TrimSpace(pins[k]) && lib.parse(pins[k]).Some? && Reserved(lib.parse(pins[k]).value, allowPrivate))
  {
    hide Blocked, Reserved, TrimSpace, Form;
    forall ip ensures Blocked(ip, allowPrivate) <==> Reserved(ip, allowPrivate) {
      BlockedIsReserved(ip, allowPrivate);
    }
    if PinsAreFine(pins, allowPrivate, lib) {
      forall i | 0 <= i < |pins|
        ensures pins[i] == TrimSpace(pins[i]) && lib.parse(pins[i]).Some?
        ensures !Reserved(lib.parse(pins[i]).value, allowPrivate)
        ensures forall j :: 0 <= j < i ==> Form(lib.parse(pins[j])) != Form(lib.parse(pins[i]))
      {
        assert PinFailure(pins, i, allowPrivate, lib) == None;
      }
    }
  }

  // Trimming cuts white space off both ends and nothing else.
  lemma {:induction false} TrimSpaceIs(s: string) returns (i: nat, j: nat)
    ensures i <= j <= |s| && TrimSpace(s) == s[i..j]
    ensures forall k :: 0 <= k < i || j <= k < |s| ==> IsSpace(s[k])
    ensures i < j ==> !IsSpace(s[i]) && !IsSpace(s[j - 1])
  {
    hide IsSpace;
    if s != "" && IsSpace(s[0]) {
      var a, b := TrimSpaceIs(s[1..]);
      i, j := a + 1, b + 1;
      assert forall k :: 1 <= k < |s| ==> s[k] == s[1..][k - 1];
      assert s[i..j] == s[1..][a..b];
    } else if s != "" && IsSpace(s[|s| - 1]) {
      i, j := TrimSpaceIs(s[..|s| - 1]);
      assert s[i..j] == s[..|s| - 1][i..j];
    } else {
      i, j := 0, |s|;
    }
  }

  // The white space of Unicode, by code point.
  lemma SpaceByCode(c: char)
    ensures IsSpace(c) <==>
      var n := c as int;
      9 <= n <= 13 || n in {32, 133, 160, 5760, 8232, 8233, 8239, 8287, 12288} || 8192 <= n <= 8202
  {}

  // When a target is refused for what it is, and how.
  lemma IdentityIs(target: string, allowed: seq<string>, lib: Library)
    ensures TargetIdentity(target, allowed, lib) == Some(InvalidTarget) <==>
      |target| == 0 || |target| > 253
      || exists i :: 0 <= i < |target| &&
           (target[i] == ' ' || target[i] == '\t' || target[i] == '\r' || target[i] == '\n')
    ensures TargetIdentity(target, allowed, lib) == Some(BlockedTarget) ==>
      allowed != [] && forall i :: 0 <= i < |allowed| ==>
        lib.lower(TrimDot(target)) != lib.lower(TrimDot(TrimSpace(allowed[i])))
    ensures TargetIdentity(target, allowed, lib) == None && allowed != [] ==>
      exists i :: 0 <= i < |allowed| && lib.lower(TrimDot(target)) == lib.lower(TrimDot(TrimSpace(allowed[i])))
  {
    hide TrimSpace, TrimDot;
    if i :| 0 <= i < |target| && (target[i] == ' ' || target[i] == '\t' || target[i] == '\r' || target[i] == '\n') {
      assert target[i] in " \t\r\n" && target[i] in target;
    }
    if c :| c in " \t\r\n" && c in target {
      var i :| 0 <= i < |target| && target[i] == c;
    }
  }

  // One final dot makes no difference, neither in a target nor in the allowlist;
  // a second one does.
  lemma FinalDotIsIgnored(host: string, allowed: seq<string>, lib: Library, i: nat)
    requires host == "" || host[|host| - 1] != '.'
    ensures TrimDot(host) == host && TrimDot(host + ".") == host && TrimDot(host + "..") == host + "."
    ensures IsAllowedTarget(host + ".", allowed, lib) <==> IsAllowedTarget(host, allowed, lib)
    ensures i < |allowed| && (TrimSpace(allowed[i]) == host || TrimSpace(allowed[i]) == host + ".") ==>
      IsAllowedTarget(host, allowed, lib)
  {
    hide TrimSpace;
    assert (host + ".")[..|host|] == host && (host + "..")[..|host| + 1] == host + ".";
  }

  // The kind of the first test that fails, in the order in which they are made.
  ghost predicate FailsWith(target: string, pins: seq<string>, allowPrivate: bool, allowed: seq<string>, lib: Library,
                            kind: TargetErrorKind)
  {
    var identity := TargetIdentity(TrimSpace(target), allowed, lib);
    if identity.Some? then identity.value == kind
    else if !(1 <= |pins| <= MAXIMUM_TARGET_ADDRESSES) then kind == BlockedTarget
    else if !PinsAreFine(pins, allowPrivate, lib) then
      exists k :: FirstFault(pins, k, allowPrivate, lib) && PinFailure(pins, k, allowPrivate, lib) == Some(kind)
    else
      && !MatchesTarget(TrimSpace(target), pins, lib)
      && kind == if lib.parse(TrimSpace(target)).Some? then BlockedTarget else InvalidTarget
  }

  lemma PinVerdict(pins: seq<string>, i: nat, allowPrivate: bool, lib: Library, seen: set<IP>)
    requires i < |pins|
    requires forall form :: form in seen <==> exists j :: 0 <= j < i && Form(lib.parse(pins[j])) == form
    ensures PinFailure(pins, i, allowPrivate, lib) ==
      if pins[i] != TrimSpace(pins[i]) || lib.parse(pins[i]).None? then Some(InvalidTarget)
      else if Blocked(lib.parse(pins[i]).value, allowPrivate) then Some(BlockedTarget)
      else if Form(lib.parse(pins[i])) in seen then Some(InvalidTarget)
      else None
  {
    hide TrimSpace, Blocked, Form;
  }

  method ParsePins(pins: seq<string>, allowPrivate: bool, lib: Library)
    returns (ips: seq<IP>, fault: Option<TargetErrorKind>)
    ensures fault == None <==> PinsAreFine(pins, allowPrivate, lib)
    ensures fault == None <==>
      && (forall i :: 0 <= i < |pins| ==>
            && pins[i] == TrimSpace(pins[i]) && lib.parse(pins[i]).Some?
            && !Reserved(lib.parse(pins[i]).value, allowPrivate))
      && (forall i, j :: 0 <= i < j < |pins| ==> Form(lib.parse(pins[i])) != Form(lib.parse(pins[j])))
    ensures fault.Some? ==> exists k ::
      FirstFault(pins, k, allowPrivate, lib) && PinFailure(pins, k, allowPrivate, lib) == fault
    ensures fault == None ==> |ips| == |pins|
    ensures fault == None ==> forall i :: 0 <= i < |pins| ==> lib.parse(pins[i]) == Some(ips[i])
  {
    hide TrimSpace, Blocked, Reserved, Form, PinFailure;
    FinePins(pins, allowPrivate, lib);
    ips := [];
    var seen: set<IP> := {};
    for i := 0 to |pins|
      invariant |ips| == i
      invariant forall k :: 0 <= k < i ==> lib.parse(pins[k]) == Some(ips[k])
      invariant forall k :: 0 <= k < i ==> PinFailure(pins, k, allowPrivate, lib) == None
      invariant forall form :: form in seen <==> exists k :: 0 <= k < i && Form(lib.parse(pins[k])) == form
    {
      PinVerdict(pins, i, allowPrivate, lib, seen);
      var raw := pins[i];
      var ip := lib.parse(raw);
      if raw != TrimSpace(raw) || ip.None? {
        assert FirstFault(pins, i, allowPrivate, lib);
        return [], Some(InvalidTarget);
      }
      var canonical := Form(ip);
      if Blocked(ip.value, allowPrivate) {
        assert FirstFault(pins, i, allowPrivate, lib);
        return [], Some(BlockedTarget);
      }
      if canonical in seen {
        assert FirstFault(pins, i, allowPrivate, lib);
        return [], Some(InvalidTarget);
      }
      seen := seen + {canonical};
      ips := ips + [ip.value];
    }
    return ips, None;
  }

  // Never resolves the target. Accepts exactly the sets that pass every test,
  // and otherwise reports the first test that fails.
  method ValidatePinnedTarget(target: string, pins: seq<string>, allowPrivate: bool, allowed: seq<string>, lib: Library)
    returns (r: Result<ValidatedTarget>)
    ensures r.Ok? <==> Accepted(target, pins, allowPrivate, allowed, lib)
    ensures r.Ok? ==> r.value.original == TrimSpace(target)
    ensures r.Ok? ==> |r.value.ips| == |pins|
    ensures r.Ok? ==> forall i :: 0 <= i < |pins| ==> lib.parse(pins[i]) == Some(r.value.ips[i])
    ensures r.Err? ==> FailsWith(target, pins, allowPrivate, allowed, lib, r.kind)
    ensures r.Ok? ==> forall i :: 0 <= i < |r.value.ips| ==> !Reserved(r.value.ips[i], allowPrivate)
  {
    hide TrimSpace, TargetIdentity, Blocked, Reserved, ValidHostname, Form, FirstFault, PinsAreFine;
    var target := TrimSpace(target);
    var identity := TargetIdentity(target, allowed, lib);
    if identity.Some? {
      return Err(identity.value);
    }
    if |pins| == 0 || |pins| > MAXIMUM_TARGET_ADDRESSES {
      return Err(BlockedTarget);
    }
    var ips, fault := ParsePins(pins, allowPrivate, lib);
    if fault.Some? {
      return Err(fault.value);
    }
    var targetIP := lib.parse(target);
    if targetIP.Some? {
      if |ips| != 1 || Form(targetIP) != Form(Some(ips[0])) {
        return Err(BlockedTarget);
      }
    } else if !ValidHostname(target) {
      return Err(InvalidTarget);
    }
    return Ok(ValidatedTarget(target, ips));
  }

  // The failure of VerifyCurrentResolution, if any.
  method VerifyCurrentResolution(pinned: ValidatedTarget, lib: Library) returns (failure: Option<TargetErrorKind>)
    ensures lib.parse(pinned.original).Some? ==> failure == None
    ensures lib.parse(pinned.original).None? && lib.lookup(pinned.original).None? ==> failure == Some(InvalidTarget)
    ensures lib.parse(pinned.original).None? && lib.lookup(pinned.original).Some? ==>
      failure == if SameAddresses(Wrap(pinned.ips), lib.lookup(pinned.original).value)
                 then None else Some(BlockedTarget)
  {
    if lib.parse(pinned.original).Some? {
      return None;
    }
    var current := lib.lookup(pinned.original);
    if current.None? {
      return Some(InvalidTarget);
    }
    var same := SameIPSet(Wrap(pinned.ips), current.value);
    if !same {
      return Some(BlockedTarget);
    }
    return None;
  }

  function Parsed(pins: seq<string>, lib: Library): seq<Option<IP>> {
    seq(|pins|, i requires 0 <= i < |pins| => lib.parse(pins[i]))
  }

  // A literal address needs no lookup; a name must still resolve to its pins.
  ghost predicate Current(target: string, pins: seq<string>, lib: Library) {
    || lib.parse(target).Some?
    || (lib.lookup(target).Some? && SameAddresses(Parsed(pins, lib), lib.lookup(target).value))
  }

  // What a production request must get past before a job is admitted.
  method CheckTarget(target: string, pins: seq<string>, allowPrivate: bool, allowed: seq<string>, lib: Library)
    returns (r: Result<ValidatedTarget>)
    ensures r.Ok? <==> Accepted(target, pins, allowPrivate, allowed, lib) && Current(TrimSpace(target), pins, lib)
    ensures r.Ok? ==> r.value.original == TrimSpace(target) && Wrap(r.value.ips) == Parsed(pins, lib)
    ensures r.Ok? ==> SoundPins(r.value.ips, allowPrivate)
    ensures r.Ok? ==> 1 <= |r.value.ips| <= 16
    ensures r.Ok? ==> forall i :: 0 <= i < |r.value.ips| ==> !Reserved(r.value.ips[i], allowPrivate)
    ensures r.Ok? ==> forall i, j :: 0 <= i < j < |r.value.ips| ==>
      Canonical(r.value.ips[i]) != Canonical(r.value.ips[j])
    ensures r.Ok? && lib.parse(r.value.original).None? ==> lib.lookup(r.value.original).Some?
    ensures r.Ok? && lib.parse(r.value.original).None?
      ==> CurrentPins(r.value.ips, lib.lookup(r.value.original).value, allowPrivate)
  {
    hide Accepted, SoundPins, CurrentPins, TrimSpace, SameAddresses, Reserved, Canonical;
    if |pins| == 0 {
      NoPinsNoAccess(target, pins, allowPrivate, allowed, lib);
      return Err(BlockedTarget);
    }
    r := ValidatePinnedTarget(target, pins, allowPrivate, allowed, lib);
    if r.Ok? {
      AcceptedPinsAreSound(target, pins, allowPrivate, allowed, lib, r.value.ips);
      assert Wrap(r.value.ips) == Parsed(pins, lib);
      SoundPinsAre(r.value.ips, allowPrivate);
      var failure := VerifyCurrentResolution(r.value, lib);
      if failure.Some? {
        return Err(failure.value);
      }
      if lib.parse(r.value.original).None? {
        MatchingAnswersAreSound(r.value.ips, lib.lookup(r.value.original).value, allowPrivate);
      }
    }
  }

  lemma NoPinsNoAccess(target: string, pins: seq<string>, allowPrivate: bool, allowed: seq<string>, lib: Library)
    requires pins == []
    ensures !Accepted(target, pins, allowPrivate, allowed, lib)
  {}

  // One to sixteen different addresses, none of them blocked.
  predicate SoundPins(ips: seq<IP>, allowPrivate: bool) {
    && 1 <= |ips| <= MAXIMUM_TARGET_ADDRESSES
    && Distinct(Forms(Wrap(ips)))
    && forall i :: 0 <= i < |ips| ==> !Blocked(ips[i], allowPrivate)
  }

  lemma SoundPinsAre(ips: seq<IP>, allowPrivate: bool)
    requires SoundPins(ips, allowPrivate)
    ensures 1 <= |ips| <= 16 && forall i :: 0 <= i < |ips| ==> !Reserved(ips[i], allowPrivate)
    ensures forall i, j :: 0 <= i < j < |ips| ==> Canonical(ips[i]) != Canonical(ips[j])
  {
    hide Blocked, Reserved, Canonical;
    forall i | 0 <= i < |ips| ensures !Reserved(ips[i], allowPrivate) {
      BlockedIsReserved(ips[i], allowPrivate);
    }
    var forms := Forms(Wrap(ips));
    forall i, j | 0 <= i < j < |ips| ensures Canonical(ips[i]) != Canonical(ips[j]) {
      assert forms[i] != forms[j];
    }
  }

  // The name resolves to exactly the pins, so to nothing that is blocked.
  ghost predicate CurrentPins(ips: seq<IP>, current: seq<Option<IP>>, allowPrivate: bool) {
    && SameAddresses(Wrap(ips), current)
    && |current| == |ips|
    && forall i :: 0 <= i < |current| ==> !Reserved(Form(current[i]), allowPrivate)
  }

  lemma AcceptedPinsAreSound(target: string, pins: seq<string>, allowPrivate: bool, allowed: seq<string>, lib: Library,
                             ips: seq<IP>)
    requires Accepted(target, pins, allowPrivate, allowed, lib) && |ips| == |pins|
    requires forall i :: 0 <= i < |pins| ==> lib.parse(pins[i]) == Some(ips[i])
    ensures SoundPins(ips, allowPrivate)
  {
    hide TargetIdentity, MatchesTarget, Blocked, Canonical, TrimSpace;
    var forms := Forms(Wrap(ips));
    forall i, j | 0 <= i < j < |ips| ensures forms[i] != forms[j] {
      assert PinFailure(pins, j, allowPrivate, lib) == None;
      assert Form(lib.parse(pins[i])) == forms[i] && Form(lib.parse(pins[j])) == forms[j];
    }
    forall i | 0 <= i < |ips| ensures !Blocked(ips[i], allowPrivate) {
      assert PinFailure(pins, i, allowPrivate, lib) == None;
    }
  }

  lemma CanonicalIsSound(ip: IP, allowPrivate: bool)
    requires !Blocked(ip, allowPrivate)
    ensures !Reserved(Canonical(ip), allowPrivate)
  {
    hide BlockedForm, Reserved;
    BlockedIsReserved(Canonical(ip), allowPrivate);
  }

  lemma MatchingAnswersAreSound(ips: seq<IP>, current: seq<Option<IP>>, allowPrivate: bool)
    requires SoundPins(ips, allowPrivate) && SameAddresses(Wrap(ips), current)
    ensures CurrentPins(ips, current, allowPrivate)
  {
    hide Blocked, Reserved, Canonical;
    var forms := Forms(Wrap(ips));
    DistinctIffFull(forms);
    DistinctIffFull(Forms(current));
    forall i | 0 <= i < |current| ensures !Reserved(Form(current[i]), allowPrivate) {
      assert Forms(current)[i] in Elements(forms);
      var j :| 0 <= j < |forms| && forms[j] == Forms(current)[i];
      CanonicalIsSound(ips[j], allowPrivate);
    }
  }

  // Printed by any function that tells canonical forms apart, accepted pins are
  // a valid pin set in the sense the scanner's task list needs.
  lemma SoundPinsAreValid(ips: seq<IP>, allowPrivate: bool, text: IP -> Address)
    requires SoundPins(ips, allowPrivate) && forall a, b :: text(a) == text(b) ==> a == b
    ensures ValidPins(seq(|ips|, i requires 0 <= i < |ips| => text(Canonical(ips[i]))))
  {
    var forms := Forms(Wrap(ips));
    assert forall i :: 0 <= i < |ips| ==> forms[i] == Canonical(ips[i]);
  }
}
