/** How the pieces fit together: the native and the in-process scanners
    report the same ports, and the job manager's argument list is read by the
    native program's argument parser. */
module ScannerAgreement {
  import opened Wrappers
  import opened ScanRecords
  import opened PortRange
  import ServiceNames
  import PortScanService
  import PortScanCpp
  import CppExecutionService

  /** Given the same network, the native scan and the in-process scan report
      the same ports in the same order, and where the system services
      database is silent they give the same labels, except that the Java
      fallback becomes "unknown". */
  lemma NativeScanMatchesJavaScan(openPorts: seq<PortInfo>, host: string, startPort: int, endPort: int,
                                  timeoutMs: int, isPortOpen: PortScanCpp.PortProbe,
                                  servicesDb: int -> Option<string>, probe: int -> PortScanService.Probe)
    requires PortScanCpp.IsScanResult(openPorts, host, startPort, endPort, timeoutMs, isPortOpen, servicesDb)
    requires forall p :: isPortOpen(host, p, timeoutMs) <==> probe(p) == PortScanService.Connected
    ensures var results := PortScanService.ScanPorts(startPort, endPort, probe);
      && PortScanCpp.InfoPorts(openPorts) == PortScanService.PortsOf(results)
      && forall i :: 0 <= i < |openPorts| && servicesDb(openPorts[i].port).None? ==>
           openPorts[i].service
             == if results[i].application == ServiceNames.UnknownApplication
                then ServiceNames.UnknownService else results[i].application
  {
    var results := PortScanService.ScanPorts(startPort, endPort, probe);
    var nativePorts := PortScanCpp.InfoPorts(openPorts);
    var javaPorts := PortScanService.PortsOf(results);
    forall p ensures p in nativePorts <==> p in javaPorts {
      PortScanService.ScanPortsReportsExactlyOpenPorts(startPort, endPort, probe, p);
      if p in nativePorts {
        var i :| 0 <= i < |openPorts| && nativePorts[i] == p;
        assert openPorts[i].port == p;
      }
    }
    PortScanService.ScanPortsStrictlyAscending(startPort, endPort, probe);
    AscendingDeterminedByElements(nativePorts, javaPorts);
    forall i | 0 <= i < |openPorts| && servicesDb(openPorts[i].port).None?
      ensures openPorts[i].service
        == if results[i].application == ServiceNames.UnknownApplication
           then ServiceNames.UnknownService else results[i].application
    {
      assert nativePorts[i] == javaPorts[i];
      assert results[i] in results;
      PortScanService.ScanPortsMembership(startPort, endPort, probe, results[i]);
      ServiceNames.NativeLabelMatchesJavaLabel(openPorts[i].port, servicesDb);
    }
  }

  /** The job manager starts the scanner with the report id where the program
      expects the host and the scan option where it expects the start port;
      the end port is the literal "1" and the timeout the literal "10000".
      A non-numeric option aborts the scanner, and a number above 1 gives an
      empty range. */
  lemma JobArgumentsAsReadByScanner(executable: string, reportIdText: string, option: string,
                                    stoi: string -> Option<int>)
    requires stoi("1") == Some(1) && stoi("10000") == Some(10000)
    ensures var parse := PortScanCpp.ParseArguments(
              CppExecutionService.ProgramArguments(executable, reportIdText, option), stoi);
      && (stoi(option).None? ==> parse == PortScanCpp.BadNumber)
      && (stoi(option).Some? ==>
            parse == PortScanCpp.Parsed(PortScanCpp.Arguments(reportIdText, stoi(option).value, 1, 10000)))
      && (stoi(option).Some? && stoi(option).value > 1 ==> Range(parse.args.startPort, parse.args.endPort) == [])
  {
    var argv := CppExecutionService.ProgramArguments(executable, reportIdText, option);
    assert argv[3] == "1" && argv[4] == "10000";
  }
}
