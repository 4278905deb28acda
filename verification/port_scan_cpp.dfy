/** The native scanner program: argument defaults, the timeout split used to
    configure each probe socket, the sequential scanning loop with service-name
    enrichment, and the JSON document it prints. Socket probing, the services
    database and `std::stoi` are oracles. */
module PortScanCpp {
  import opened Wrappers
  import opened ScanRecords
  import opened PortRange
  import ServiceNames

  // ---------------------------------------------------------------------------
  // Probe timeout
  // ---------------------------------------------------------------------------

  /** A `struct timeval`. */
  datatype Timeval = Timeval(sec: int, usec: int)

  /** C's integer division, which truncates toward zero. */
  function CQuotient(a: int, b: int): int
    requires b > 0
  {
    if a >= 0 then a / b else -((-a) / b)
  }

  /** C's remainder, whose sign follows the dividend. */
  function CRemainder(a: int, b: int): int
    requires b > 0
  {
    a - CQuotient(a, b) * b
  }

  /** The timeout of `isPortOpen` split into seconds and microseconds. The
      split loses nothing: the two parts always add up to the requested
      duration, and for a non-negative timeout the microseconds stay below
      one second. */
  function TimeoutToTimeval(timeoutMs: int): (tv: Timeval)
    ensures tv.sec * 1000000 + tv.usec == timeoutMs * 1000
    ensures timeoutMs >= 0 ==> tv.sec == timeoutMs / 1000 && 0 <= tv.usec <= 999000
    ensures timeoutMs < 0 ==> tv.sec <= 0 && -999000 <= tv.usec <= 0
    ensures tv.usec % 1000 == 0
  {
    Timeval(CQuotient(timeoutMs, 1000), CRemainder(timeoutMs, 1000) * 1000)
  }

  // ---------------------------------------------------------------------------
  // Scanning loop
  // ---------------------------------------------------------------------------

  /** `isPortOpen(host, port, timeout_ms)`: the network, as an oracle. */
  type PortProbe = (string, int, int) -> bool

  /** The ports of an open-port list, in order; the native counterpart of
      `PortScanService.PortsOf`, used to compare the two scanners. */
  function InfoPorts(openPorts: seq<PortInfo>): (ports: seq<int>)
    ensures |ports| == |openPorts|
    ensures forall i :: 0 <= i < |openPorts| ==> ports[i] == openPorts[i].port
  {
    seq(|openPorts|, i requires 0 <= i < |openPorts| => openPorts[i].port)
  }

  /** `openPorts` is what scanning `[startPort, endPort]` of `host` reports:
      the ports whose probe succeeded, each once, in ascending order, each
      named by `getServiceName`. */
  predicate IsScanResult(openPorts: seq<PortInfo>, host: string, startPort: int, endPort: int,
                         timeoutMs: int, isPortOpen: PortProbe, servicesDb: int -> Option<string>)
  {
    && StrictlyAscending(InfoPorts(openPorts))
    && (forall i :: 0 <= i < |openPorts| ==>
          startPort <= openPorts[i].port <= endPort
          && IsOpenEntry(openPorts[i], host, timeoutMs, isPortOpen, servicesDb))
    && (forall p :: startPort <= p <= endPort && isPortOpen(host, p, timeoutMs) ==>
          p in InfoPorts(openPorts))
  }

  /** An entry of the result: its port answered the probe and it carries the
      port's service name. */
  predicate IsOpenEntry(info: PortInfo, host: string, timeoutMs: int, isPortOpen: PortProbe,
                        servicesDb: int -> Option<string>)
  {
    isPortOpen(host, info.port, timeoutMs) && info.service == ServiceNames.GetServiceName(info.port, servicesDb)
  }

  /** `scanPorts`: probes every port from `startPort` to `endPort` once, in
      ascending order (`probed` lists the probes made), and keeps the open
      ones with their service names. */
  method ScanPorts(host: string, startPort: int, endPort: int, timeoutMs: int,
                   isPortOpen: PortProbe, servicesDb: int -> Option<string>)
    returns (openPorts: seq<PortInfo>, probed: seq<int>)
    ensures probed == Range(startPort, endPort)
    ensures IsScanResult(openPorts, host, startPort, endPort, timeoutMs, isPortOpen, servicesDb)
    ensures startPort > endPort ==> openPorts == []
  {
    openPorts := [];
    probed := [];
    if startPort > endPort {
      // the loop condition fails at once
      return;
    }
    var port := startPort;
    while port <= endPort
      invariant startPort <= port <= endPort + 1
      invariant probed == Range(startPort, port - 1)
      invariant IsScanResult(openPorts, host, startPort, port - 1, timeoutMs, isPortOpen, servicesDb)
      decreases endPort - port
    {
      RangeExtend(startPort, port - 1);
      probed := probed + [port];
      openPorts := ScanStep(openPorts, host, startPort, port, timeoutMs, isPortOpen, servicesDb);
      port := port + 1;
    }
  }

  /** One turn of the loop: probe `port` and append it with its service name
      when it is open. A result for the ports below `port` becomes a result
      for the ports up to `port`. */
  function ScanStep(openPorts: seq<PortInfo>, host: string, startPort: int, port: int, timeoutMs: int,
                    isPortOpen: PortProbe, servicesDb: int -> Option<string>): (next: seq<PortInfo>)
    requires startPort <= port
    requires IsScanResult(openPorts, host, startPort, port - 1, timeoutMs, isPortOpen, servicesDb)
    ensures IsScanResult(next, host, startPort, port, timeoutMs, isPortOpen, servicesDb)
  {
    if isPortOpen(host, port, timeoutMs) then
      var info := PortInfo(port, ServiceNames.GetServiceName(port, servicesDb));
      var next := openPorts + [info];
      assert InfoPorts(next) == InfoPorts(openPorts) + [port];
      assert forall i :: 0 <= i < |openPorts| ==> next[i] == openPorts[i];
      next
    else
      openPorts
  }

  /** The scan result is determined by the oracles: two sequences that both
      satisfy the contract of `ScanPorts` are equal. */
  lemma ScanResultIsUnique(a: seq<PortInfo>, b: seq<PortInfo>, host: string, startPort: int,
                           endPort: int, timeoutMs: int, isPortOpen: PortProbe,
                           servicesDb: int -> Option<string>)
    requires IsScanResult(a, host, startPort, endPort, timeoutMs, isPortOpen, servicesDb)
    requires IsScanResult(b, host, startPort, endPort, timeoutMs, isPortOpen, servicesDb)
    ensures a == b
  {
    forall p ensures p in InfoPorts(a) <==> p in InfoPorts(b) {
      if p in InfoPorts(a) {
        var i :| 0 <= i < |a| && InfoPorts(a)[i] == p;
        assert a[i].port == p;
      }
      if p in InfoPorts(b) {
        var i :| 0 <= i < |b| && InfoPorts(b)[i] == p;
        assert b[i].port == p;
      }
    }
    AscendingDeterminedByElements(InfoPorts(a), InfoPorts(b));
    assert forall i :: 0 <= i < |a| ==> a[i] == b[i] by {
      forall i | 0 <= i < |a| ensures a[i] == b[i] {
        assert InfoPorts(a)[i] == InfoPorts(b)[i];
      }
    }
  }

  // ---------------------------------------------------------------------------
  // The printed document
  // ---------------------------------------------------------------------------

  /** A JSON value as the program builds it. Objects are keyed maps, since the
      JSON library stores object members by key. */
  datatype Json =
    | JNull
    | JNumber(n: int)
    | JString(s: string)
    | JArray(items: seq<Json>)
    | JObject(members: map<string, Json>)

  /** The decoded content of a printed document. */
  datatype ScanReport = ScanReport(host: string, range: ScanRange, openPorts: seq<PortInfo>)

  function PortInfoJson(info: PortInfo): Json {
    JObject(map["port" := JNumber(info.port), "service" := JString(info.service)])
  }

  /** The document `main` builds: the host, the requested range and one
      entry per open port, in scan order. */
  function ReportJson(report: ScanReport): (doc: Json)
    ensures doc.JObject? && doc.members.Keys == {"host", "scan_range", "open_ports"}
    ensures doc.members["scan_range"].JObject? && doc.members["scan_range"].members.Keys == {"start", "end"}
    ensures doc.members["open_ports"].JArray? && |doc.members["open_ports"].items| == |report.openPorts|
    ensures forall i :: 0 <= i < |report.openPorts| ==>
      doc.members["open_ports"].items[i].JObject? && doc.members["open_ports"].items[i].members.Keys == {"port", "service"}
    ensures DecodeReport(doc) == Some(report)
  {
    var items := PortInfoItems(report.openPorts);
    PortInfosRoundTrip(report.openPorts);
    JObject(map[
      "host" := JString(report.host),
      "scan_range" := JObject(map["start" := JNumber(report.range.start),
                                  "end" := JNumber(report.range.end)]),
      "open_ports" := JArray(items)
    ])
  }

  function PortInfoItems(infos: seq<PortInfo>): (items: seq<Json>)
    ensures |items| == |infos|
    ensures forall i :: 0 <= i < |infos| ==> items[i] == PortInfoJson(infos[i])
  {
    seq(|infos|, i requires 0 <= i < |infos| => PortInfoJson(infos[i]))
  }

  function DecodePortInfo(j: Json): Option<PortInfo> {
    match j
    case JObject(m) =>
      if "port" in m && m["port"].JNumber? && "service" in m && m["service"].JString?
      then Some(PortInfo(m["port"].n, m["service"].s))
      else None
    case _ => None
  }

  function DecodePortInfos(items: seq<Json>): (infos: Option<seq<PortInfo>>)
    ensures infos.Some? ==> |infos.value| == |items|
  {
    if items == [] then Some([])
    else
      match (DecodePortInfo(items[0]), DecodePortInfos(items[1..]))
      case (Some(first), Some(rest)) => Some([first] + rest)
      case _ => None
  }

  /** Reads a document of the shape `main` prints; `None` for any other. */
  function DecodeReport(j: Json): Option<ScanReport> {
    match j
    case JObject(m) =>
      if && "host" in m && m["host"].JString?
         && "scan_range" in m && m["scan_range"].JObject?
         && "start" in m["scan_range"].members && m["scan_range"].members["start"].JNumber?
         && "end" in m["scan_range"].members && m["scan_range"].members["end"].JNumber?
         && "open_ports" in m && m["open_ports"].JArray?
      then
        match DecodePortInfos(m["open_ports"].items)
        case Some(ports) =>
          Some(ScanReport(m["host"].s,
                          ScanRange(m["scan_range"].members["start"].n, m["scan_range"].members["end"].n),
                          ports))
        case None => None
      else None
    case _ => None
  }

  lemma {:induction false} PortInfosRoundTrip(infos: seq<PortInfo>)
    ensures DecodePortInfos(PortInfoItems(infos)) == Some(infos)
    decreases |infos|
  {
    if infos != [] {
      var items := PortInfoItems(infos);
      var tail := infos[1..];
      PortInfosRoundTrip(tail);
      assert items[1..] == PortInfoItems(tail);
      assert DecodePortInfo(items[0]) == Some(infos[0]);
      assert [infos[0]] + tail == infos;
    }
  }

  // ---------------------------------------------------------------------------
  // Command line and `main`
  // ---------------------------------------------------------------------------

  datatype Arguments = Arguments(host: string, startPort: int, endPort: int, timeoutMs: int)

  datatype ArgumentsOutcome =
    | MissingHost            // fewer than two arguments: usage message
    | BadNumber              // `std::stoi` threw on a given number
    | Parsed(args: Arguments)

  /** Reads `argv` (program name first). A missing start, end or timeout
      defaults to 1, 65535 and 200; arguments after the fourth are ignored.
      `stoi` is `std::stoi`, `None` standing for the exception it throws. */
  function ParseArguments(argv: seq<string>, stoi: string -> Option<int>): (parse: ArgumentsOutcome)
    ensures parse == MissingHost <==> |argv| < 2
    ensures parse == BadNumber <==>
      |argv| >= 2 && exists k :: 2 <= k < |argv| && k <= 4 && stoi(argv[k]).None?
    ensures parse.Parsed? ==> parse.args.host == argv[1]
    ensures parse.Parsed? ==>
      && (if |argv| > 2 then stoi(argv[2]) == Some(parse.args.startPort) else parse.args.startPort == 1)
      && (if |argv| > 3 then stoi(argv[3]) == Some(parse.args.endPort) else parse.args.endPort == 65535)
      && (if |argv| > 4 then stoi(argv[4]) == Some(parse.args.timeoutMs) else parse.args.timeoutMs == 200)
  {
    if |argv| < 2 then MissingHost
    else
      var start := if |argv| > 2 then stoi(argv[2]) else Some(1);
      var end := if |argv| > 3 then stoi(argv[3]) else Some(65535);
      var timeout := if |argv| > 4 then stoi(argv[4]) else Some(200);
      if start.None? || end.None? || timeout.None? then BadNumber
      else Parsed(Arguments(argv[1], start.value, end.value, timeout.value))
  }

  /** With only a host, the whole port space is scanned with a 200 ms
      timeout, whatever `stoi` would do. */
  lemma HostOnlyDefaults(program: string, host: string, stoi: string -> Option<int>)
    ensures ParseArguments([program, host], stoi) == Parsed(Arguments(host, 1, 65535, 200))
  {
    var argv := [program, host];
    assert |argv| == 2 && argv[1] == host;
  }

  /** How `main` ends. */
  datatype Exit =
    | Usage              // usage printed on the error stream, returns 1
    | Aborted            // `std::stoi` threw outside the try block: terminate
    | Failed             // a `std::exception` caught inside the try block: returns 1
    | Printed(document: Json)  // document printed, returns 0

  /** The process exit status `main` returns; `None` when it is killed by
      the uncaught exception instead of returning. */
  function ExitStatus(exit: Exit): (status: Option<int>)
    ensures status == Some(0) <==> exit.Printed?
    ensures status.None? <==> exit == Aborted
    ensures exit == Usage || exit == Failed ==> status == Some(1)
  {
    match exit
    case Usage => Some(1)
    case Aborted => None
    case Failed => Some(1)
    case Printed(_) => Some(0)
  }

  /** `main`. `raised` says whether a `std::exception` is thrown inside the
      try block after the scan, while the document is built or printed;
      `probed` lists the ports probed. */
  method RunProgram(argv: seq<string>, stoi: string -> Option<int>, isPortOpen: PortProbe,
                    servicesDb: int -> Option<string>, raised: bool)
    returns (exit: Exit, probed: seq<int>)
    ensures exit == Usage <==> |argv| < 2
    ensures exit == Aborted <==> ParseArguments(argv, stoi) == BadNumber
    ensures exit.Printed? <==> ParseArguments(argv, stoi).Parsed? && !raised
    ensures !ParseArguments(argv, stoi).Parsed? ==> probed == []
    ensures ParseArguments(argv, stoi).Parsed? ==>
      var args := ParseArguments(argv, stoi).args;
      probed == Range(args.startPort, args.endPort)
    ensures exit.Printed? ==>
      var args := ParseArguments(argv, stoi).args;
      var report := DecodeReport(exit.document);
      && report.Some?
      && report.value.host == argv[1]
      && report.value.range == ScanRange(args.startPort, args.endPort)
      && IsScanResult(report.value.openPorts, args.host, args.startPort, args.endPort,
                      args.timeoutMs, isPortOpen, servicesDb)
    ensures exit.Printed? ==> exit.document == ReportJson(DecodeReport(exit.document).value)
  {
    match ParseArguments(argv, stoi)
    case MissingHost =>
      exit, probed := Usage, [];
    case BadNumber =>
      exit, probed := Aborted, [];
    case Parsed(args) =>
      var openPorts;
      openPorts, probed := ScanPorts(args.host, args.startPort, args.endPort, args.timeoutMs,
                                     isPortOpen, servicesDb);
      if raised {
        exit := Failed;
      } else {
        var report := ScanReport(args.host, ScanRange(args.startPort, args.endPort), openPorts);
        exit := Printed(ReportJson(report));
      }
  }
}
