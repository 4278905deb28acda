/** The passive records exchanged by the scanners and the job manager.
    They carry data only; every behaviour lives in the modules that use them. */
module ScanRecords {
  import opened Wrappers

  /** One open port found by the in-process Java scanner (`model.PortResult`). */
  datatype PortResult = PortResult(port: int, application: string)

  /** One open port found by the native scanner (`struct PortInfo` of the
      C++ program, and the `PortInfoDTO` it is decoded into). */
  datatype PortInfo = PortInfo(port: int, service: string)

  /** The inclusive range echoed back in a scan report (`ScanRangeDTO`). */
  datatype ScanRange = ScanRange(start: int, end: int)

  /** The report forwarded to the reporting service (`PortScanResultDTO`).
      Every field is a nullable Java reference, hence an `Option`. */
  datatype PortScanResult = PortScanResult(
    reportId: Option<int>,
    host: Option<string>,
    message: Option<string>,
    error: Option<string>,
    scanRange: Option<ScanRange>,
    openPorts: Option<seq<PortInfo>>)
}
