// What one scan is asked to do: every pinned address crossed with every port
// of the requested range, in the order in which the scanner's nested loops
// visit them.
module ScanTasks {
  import opened Collections

  // A UUID in canonical form, as the 128-bit number it spells.
  type Id = nat
  type Time = int
  // An IP address in canonical textual form.
  type Address = string

  datatype ScanRequest = ScanRequest(target: string, startPort: int, endPort: int)
  datatype ScanConfig = ScanConfig(request: ScanRequest, pins: seq<Address>)

  datatype PortState = Open | Closed
  datatype Endpoint = Endpoint(address: Address, port: int)
  datatype PortResult = PortResult(endpoint: Endpoint, state: PortState)
  datatype ScanResult = ScanResult(request: ScanRequest, results: seq<PortResult>, duration: int)

  const MINIMUM_PORT := 1
  const MAXIMUM_PORT := 65535
  const MAXIMUM_PORTS := 1000
  const MAXIMUM_TARGET_ADDRESSES := 16

  // ValidatePortRange with the hard limit on ports per scan.
  predicate ValidRange(request: ScanRequest) {
    && MINIMUM_PORT <= request.startPort <= request.endPort <= MAXIMUM_PORT
    && request.endPort - request.startPort + 1 <= MAXIMUM_PORTS
  }

  function PortCount(request: ScanRequest): int {
    request.endPort - request.startPort + 1
  }

  predicate ValidPins(pins: seq<Address>) {
    1 <= |pins| <= MAXIMUM_TARGET_ADDRESSES && Distinct(pins)
  }

  function PortRange(address: Address, low: int, high: int): seq<Endpoint>
    decreases high - low + 1
  {
    if low > high then [] else [Endpoint(address, low)] + PortRange(address, low + 1, high)
  }

  function Tasks(pins: seq<Address>, request: ScanRequest): seq<Endpoint> {
    if pins == [] then []
    else PortRange(pins[0], request.startPort, request.endPort) + Tasks(pins[1..], request)
  }

  function Endpoints(results: seq<PortResult>): seq<Endpoint> {
    seq(|results|, i requires 0 <= i < |results| => results[i].endpoint)
  }

  // Nothing lost and nothing repeated, in whatever order the answers arrived.
  ghost predicate CompleteOutput(results: seq<PortResult>, config: ScanConfig) {
    multiset(Endpoints(results)) == multiset(Tasks(config.pins, config.request))
  }

  predicate InScope(e: Endpoint, config: ScanConfig) {
    e.address in config.pins && config.request.startPort <= e.port <= config.request.endPort
  }

  lemma {:induction false} PortRangeContents(address: Address, low: int, high: int)
    requires low <= high + 1
    ensures |PortRange(address, low, high)| == high - low + 1
    ensures forall i :: 0 <= i < high - low + 1 ==> PortRange(address, low, high)[i] == Endpoint(address, low + i)
    decreases high - low + 1
  {
    if low <= high {
      PortRangeContents(address, low + 1, high);
    }
  }

  lemma PortRangeMembers(address: Address, low: int, high: int)
    requires low <= high + 1
    ensures Distinct(PortRange(address, low, high))
    ensures forall e :: e in PortRange(address, low, high) <==> e.address == address && low <= e.port <= high
  {
    var ports := PortRange(address, low, high);
    PortRangeContents(address, low, high);
    forall e: Endpoint | e.address == address && low <= e.port <= high ensures e in ports {
      assert ports[e.port - low] == e;
    }
  }

  lemma {:induction false} TaskCount(pins: seq<Address>, request: ScanRequest)
    requires request.startPort <= request.endPort
    ensures |Tasks(pins, request)| == |pins| * (request.endPort - request.startPort + 1)
  {
    if pins != [] {
      PortRangeContents(pins[0], request.startPort, request.endPort);
      TaskCount(pins[1..], request);
      ProductStep(|pins|, PortCount(request));
    }
  }

  lemma ProductStep(a: int, b: int)
    ensures b + (a - 1) * b == a * b
  {}

  // With distinct pins the task list is exactly addresses x ports, each once.
  lemma {:induction false} TaskMembers(pins: seq<Address>, request: ScanRequest)
    requires Distinct(pins) && request.startPort <= request.endPort
    ensures Distinct(Tasks(pins, request))
    ensures forall e :: e in Tasks(pins, request) <==>
      e.address in pins && request.startPort <= e.port <= request.endPort
  {
    if pins != [] {
      var head, tail := PortRange(pins[0], request.startPort, request.endPort), Tasks(pins[1..], request);
      PortRangeMembers(pins[0], request.startPort, request.endPort);
      TaskMembers(pins[1..], request);
      ConcatDistinct(head, tail);
      assert forall a :: a in pins <==> a == pins[0] || a in pins[1..];
    }
  }

  lemma ConcatDistinct<T>(a: seq<T>, b: seq<T>)
    requires Distinct(a) && Distinct(b) && forall x :: x in a ==> x !in b
    ensures Distinct(a + b)
  {
    var c := a + b;
    forall i, j | 0 <= i < j < |c| ensures c[i] != c[j] {
      assert c[i] in a || c[i] in b;
      if i < |a| <= j {
        assert c[i] in a && c[j] in b;
      }
    }
  }

  predicate Reported(results: seq<PortResult>, e: Endpoint) {
    exists i :: 0 <= i < |results| && results[i].endpoint == e
  }

  lemma ReportedIsListed(results: seq<PortResult>, e: Endpoint)
    ensures Reported(results, e) <==> e in Endpoints(results)
  {
    if e in Endpoints(results) {
      var i :| 0 <= i < |results| && Endpoints(results)[i] == e;
    }
    if i :| 0 <= i < |results| && results[i].endpoint == e {
      assert Endpoints(results)[i] == e;
    }
  }

  // A complete output therefore has one row per (pin, port), no two of them
  // for the same endpoint, and never more than 16 x 1000 of them.
  lemma CompleteOutputContents(results: seq<PortResult>, config: ScanConfig)
    requires CompleteOutput(results, config)
    requires ValidPins(config.pins) && ValidRange(config.request)
    ensures Distinct(Endpoints(results))
    ensures forall e :: e in Endpoints(results) <==> InScope(e, config)
    ensures forall e :: Reported(results, e) <==>
      e.address in config.pins && config.request.startPort <= e.port <= config.request.endPort
    ensures 1 <= |results| == |config.pins| * PortCount(config.request) <= 16 * 1000
  {
    hide Reported;
    var tasks := Tasks(config.pins, config.request);
    TaskCount(config.pins, config.request);
    TaskMembers(config.pins, config.request);
    MultisetDistinct(tasks, Endpoints(results));
    forall e ensures e in Endpoints(results) <==> InScope(e, config) {
      assert e in Elements(tasks) <==> e in Elements(Endpoints(results));
    }
    forall e ensures Reported(results, e) <==> e in Endpoints(results) {
      ReportedIsListed(results, e);
    }
    ProductBound(|config.pins|, PortCount(config.request), MAXIMUM_TARGET_ADDRESSES, MAXIMUM_PORTS);
  }

  lemma ProductBound(a: int, b: int, m: int, n: int)
    requires 1 <= a <= m && 1 <= b <= n
    ensures 1 <= a * b <= m * n
  {
    assert a * b <= a * n <= m * n;
  }
}
