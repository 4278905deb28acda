/** The in-process Java scanner: one probe task per port of the range,
    submitted in ascending port order, whose results are then collected in
    submission order. Reachability is an oracle; the thread pool only changes
    when probes run, not what the ordered join collects. */
module PortScanService {
  import opened Wrappers
  import opened ScanRecords
  import opened PortRange
  import ServiceNames

  /** What a probe task meets when it tries to connect to one port. */
  datatype Probe =
    | Connected   // the connection was established within the timeout
    | Refused     // an I/O error: closed port, timeout, unreachable host
    | Crashed     // any other exception escaping the task

  /** What waiting on a task's future yields: the task's return value (a
      result, or null for a closed port), or the exception it raised. */
  datatype TaskOutcome = Returned(result: Option<PortResult>) | Threw

  /** `scanPort`: an open port is labelled from the table; an I/O error gives
      null; anything else escapes and is raised again by the future. */
  function ScanPort(port: int, probe: int -> Probe): (outcome: TaskOutcome)
    ensures outcome.Returned? && outcome.result.Some? <==> probe(port) == Connected
    ensures outcome.Returned? && outcome.result.Some? ==>
      outcome.result.value.port == port
      && outcome.result.value.application == ServiceNames.Lookup(port)
    ensures outcome == Threw <==> probe(port) == Crashed
  {
    match probe(port)
    case Connected => Returned(Some(PortResult(port, ServiceNames.Lookup(port))))
    case Refused => Returned(None)
    case Crashed => Threw
  }

  /** The futures list, one task per port, in submission order. */
  function SubmitAll(ports: seq<int>, probe: int -> Probe): (futures: seq<TaskOutcome>)
    ensures |futures| == |ports|
    ensures forall i :: 0 <= i < |ports| ==> futures[i] == ScanPort(ports[i], probe)
  {
    seq(|ports|, i requires 0 <= i < |ports| => ScanPort(ports[i], probe))
  }

  /** What one future adds to the result list: its result when it is not
      null; nothing for null, nothing (after logging) for an exception. */
  function Contribution(future: TaskOutcome): seq<PortResult> {
    match future
    case Returned(Some(r)) => [r]
    case Returned(None) => []
    case Threw => []
  }

  /** The join loop: futures are awaited in list order and their results
      appended; a failed future never stops the loop. */
  function JoinAll(futures: seq<TaskOutcome>): (results: seq<PortResult>)
    ensures |results| <= |futures|
    ensures forall r :: r in results <==> Returned(Some(r)) in futures
  {
    if futures == [] then []
    else
      var rest := JoinAll(futures[1..]);
      assert forall f :: f in futures <==> f == futures[0] || f in futures[1..];
      Contribution(futures[0]) + rest
  }

  /** `scanPorts(targetIp, startPort, endPort)` with the network replaced by
      the `probe` oracle. */
  function ScanPorts(startPort: int, endPort: int, probe: int -> Probe): (results: seq<PortResult>)
    ensures |results| <= Count(startPort, endPort)
    ensures startPort > endPort ==> results == []
  {
    JoinAll(SubmitAll(Range(startPort, endPort), probe))
  }

  /** The ports of a result list, in order. `PortScanCpp.InfoPorts` is the
      same projection over the native program's records; the two record types
      stay apart because they model different classes. */
  function PortsOf(results: seq<PortResult>): (ports: seq<int>)
    ensures |ports| == |results|
    ensures forall i :: 0 <= i < |results| ==> ports[i] == results[i].port
  {
    seq(|results|, i requires 0 <= i < |results| => results[i].port)
  }

  // ---------------------------------------------------------------------------
  // Properties of the scan
  // ---------------------------------------------------------------------------

  /** A result is reported exactly for the ports of the range whose probe
      connected, and it carries the table label of its port. */
  lemma ScanPortsMembership(startPort: int, endPort: int, probe: int -> Probe, r: PortResult)
    ensures r in ScanPorts(startPort, endPort, probe)
        <==> startPort <= r.port <= endPort
             && probe(r.port) == Connected
             && r.application == ServiceNames.Lookup(r.port)
  {
    var ports := Range(startPort, endPort);
    var futures := SubmitAll(ports, probe);
    if r in ScanPorts(startPort, endPort, probe) {
      var i :| 0 <= i < |futures| && futures[i] == Returned(Some(r));
      assert ports[i] == startPort + i;
    }
    if startPort <= r.port <= endPort && probe(r.port) == Connected
       && r.application == ServiceNames.Lookup(r.port) {
      var i := r.port - startPort;
      assert futures[i] == Returned(Some(r));
    }
  }

  /** Port-level view: a port appears in the output iff it lies in the range
      and its probe connected. No result ever lies outside the range. */
  lemma ScanPortsReportsExactlyOpenPorts(startPort: int, endPort: int, probe: int -> Probe, port: int)
    ensures port in PortsOf(ScanPorts(startPort, endPort, probe))
        <==> startPort <= port <= endPort && probe(port) == Connected
  {
    var results := ScanPorts(startPort, endPort, probe);
    var r := PortResult(port, ServiceNames.Lookup(port));
    ScanPortsMembership(startPort, endPort, probe, r);
    if port in PortsOf(results) {
      var i :| 0 <= i < |results| && PortsOf(results)[i] == port;
      ScanPortsMembership(startPort, endPort, probe, results[i]);
    }
    if r in results {
      var i :| 0 <= i < |results| && results[i] == r;
      assert PortsOf(results)[i] == port;
    }
  }

  /** Every reported result carries the table label of its port. */
  lemma ScanPortsEnriched(startPort: int, endPort: int, probe: int -> Probe)
    ensures forall r :: r in ScanPorts(startPort, endPort, probe) ==>
      r.application == ServiceNames.Lookup(r.port)
  {
    forall r | r in ScanPorts(startPort, endPort, probe) {
      ScanPortsMembership(startPort, endPort, probe, r);
    }
  }

  /** Every joined result comes from a probe of one of the submitted ports. */
  lemma JoinedPortsWereSubmitted(ports: seq<int>, probe: int -> Probe)
    ensures forall r :: r in JoinAll(SubmitAll(ports, probe)) ==> r.port in ports
  {
    var futures := SubmitAll(ports, probe);
    forall r | r in JoinAll(futures) ensures r.port in ports {
      var i :| 0 <= i < |futures| && futures[i] == Returned(Some(r));
    }
  }

  /** Putting at most one result for port `p` in front of results for larger
      ports keeps the list strictly ascending. */
  lemma PrependKeepsAscending(head: seq<PortResult>, rest: seq<PortResult>, p: int)
    requires |head| <= 1
    requires forall r :: r in head ==> r.port == p
    requires forall r :: r in rest ==> p < r.port
    requires StrictlyAscending(PortsOf(rest))
    ensures StrictlyAscending(PortsOf(head + rest))
  {
    if head == [] {
      assert head + rest == rest;
    } else {
      var results := head + rest;
      forall i, j | 0 <= i < j < |results|
        ensures PortsOf(results)[i] < PortsOf(results)[j]
      {
        assert results[j] == rest[j - 1];
        if i == 0 {
          assert results[0] in head;
          assert rest[j - 1] in rest;
        } else {
          assert results[i] == rest[i - 1];
          assert PortsOf(rest)[i - 1] < PortsOf(rest)[j - 1];
        }
      }
    }
  }

  lemma {:induction false} JoinAscending(ports: seq<int>, probe: int -> Probe)
    requires StrictlyAscending(ports)
    ensures StrictlyAscending(PortsOf(JoinAll(SubmitAll(ports, probe))))
    decreases |ports|
  {
    if ports != [] {
      var futures := SubmitAll(ports, probe);
      var tail := ports[1..];
      AscendingTail(ports);
      JoinAscending(tail, probe);
      JoinedPortsWereSubmitted(tail, probe);
      assert futures[1..] == SubmitAll(tail, probe);
      var rest := JoinAll(SubmitAll(tail, probe));
      PrependKeepsAscending(Contribution(futures[0]), rest, ports[0]);
      assert JoinAll(futures) == Contribution(futures[0]) + rest;
    }
  }

  /** Results come out strictly ascending by port, hence without duplicates:
      futures are created in port order and joined in list order. */
  lemma ScanPortsStrictlyAscending(startPort: int, endPort: int, probe: int -> Probe)
    ensures StrictlyAscending(PortsOf(ScanPorts(startPort, endPort, probe)))
  {
    JoinAscending(Range(startPort, endPort), probe);
  }

  lemma {:induction false} JoinSameContributions(a: seq<TaskOutcome>, b: seq<TaskOutcome>)
    requires |a| == |b|
    requires forall i :: 0 <= i < |a| ==> Contribution(a[i]) == Contribution(b[i])
    ensures JoinAll(a) == JoinAll(b)
    decreases |a|
  {
    if a != [] {
      JoinSameContributions(a[1..], b[1..]);
    }
  }

  /** A probe that fails, by an I/O error or by a crashing task, contributes
      nothing and does not disturb any other port: the output depends only on
      which probes connected. */
  lemma FailedProbesAreInterchangeable(startPort: int, endPort: int, probe: int -> Probe, probe': int -> Probe)
    requires forall p :: probe(p) == Connected <==> probe'(p) == Connected
    ensures ScanPorts(startPort, endPort, probe) == ScanPorts(startPort, endPort, probe')
  {
    var ports := Range(startPort, endPort);
    JoinSameContributions(SubmitAll(ports, probe), SubmitAll(ports, probe'));
  }
}
