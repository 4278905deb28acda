# Port-scan service: a Dafny model

This project models the core of a small port-scanning service. The service has two scanners and a job manager.

- **The in-process Java scanner** (`PortScanService`) submits one probe task per port of an inclusive range. It collects their results in submission order. Each open port is labelled from a fixed port-to-application table, with the fallback `"Application inconnue"`.
- **The native scanner** (`portScan.cpp`) reads `host [start] [end] [timeout]`, with defaults 1, 65535 and 200. It probes the ports one by one in ascending order and names each open port. It asks the system services database first, then a switch over the same table, with the fallback `"unknown"`. It prints a JSON document `{host, scan_range: {start, end}, open_ports: [{port, service}]}`.
- **The job manager** (`CppExecutionService`) keeps a scan-id → status map and runs the native scanner as a job:
  - It writes `IN_PROGRESS` first.
  - It then writes `COMPLETED: <output>` or `ERROR: Exit code <n> - <output>`, depending on the exit code.
  - It forwards the decoded output to a reporting service. Two delivery failures become `ERROR: ... while posting scan result`.
  - Anything thrown becomes `EXCEPTION: <message>`.
  - Status queries answer the stored status, or `UNKNOWN_SCAN_ID` for an id the map does not hold.

The network, the services database, `std::stoi`, the subprocess, the JSON decoder and the HTTP call are all oracles. The model takes them as function parameters. Every property below holds for any oracles that meet the hypotheses its member states about them. For instance, `ScannerAgreement.JobArgumentsAsReadByScanner` assumes `stoi` reads "1" and "10000"; `ScannerAgreement.NativeScanMatchesJavaScan` assumes both scanners see the same network; `ServiceNames.NativeLabelsWithoutSystemEntry` assumes the services database has no entry for the ports it names.

## Layout

| file | module | what it holds |
|---|---|---|
| `wrappers.dfy` | `Wrappers` | `Option`, `Result` |
| `scan_records.dfy` | `ScanRecords` | the records: `PortResult`, `PortInfo`, `ScanRange`, `PortScanResult` |
| `text.dfy` | `Text` | prefixes, decimal text of an `int`, the captured output and its line-by-line reading |
| `service_names.dfy` | `ServiceNames` | the Java table, the native switch, `getServiceName` |
| `port_range.dfy` | `PortRange` | inclusive ranges in visiting order; strictly ascending sequences |
| `port_scan_service.dfy` | `PortScanService` | the Java scanner: probe task, submission, ordered join |
| `port_scan_cpp.dfy` | `PortScanCpp` | the native program: timeout split, scan loop, JSON document, arguments, `main` |
| `cpp_execution_service.dfy` | `CppExecutionService` | the status store, the job task, result forwarding, the status query |
| `scanner_agreement.dfy` | `ScannerAgreement` | the two scanners compared; the job's argument list as the native program reads it |

## Behaviour worth knowing

The model follows the code in each of these places.

- **Forwarding after a failed exit.** The job forwards the output after *both* exit branches (`CppExecutionService.java:86-95`), whatever the exit code.
  - A non-zero exit whose output decodes and is delivered ends in `ERROR: Exit code ...`.
  - One whose output does not decode ends in `EXCEPTION: ...`, because the decoding error overwrites the exit-code verdict (`CppExecutionService.UndecodableFailedScanEndsInException`).
- **Delivery failures overwrite the verdict.** A recognised delivery failure replaces whatever the exit code produced, so a job may receive two terminal writes.
- **The job's argument list does not match the native program's.** The job starts the scanner with `reportId, option, "1", "10000", "200"` (`CppExecutionService.java:68-73`). The program reads `host, start, end, timeout` (`portScan.cpp:205-208`). So the report id is taken as the host, the option as the start port, and the end port is 1. `ScannerAgreement.JobArgumentsAsReadByScanner` states the consequence as written: a non-numeric option aborts the scanner, and a number above 1 gives an empty range.
- **A poll right after submission can miss the job.** `IN_PROGRESS` is written inside the asynchronous task (`CppExecutionService.java:47-51`). The controller may already have returned the id by then (`CppExecutionController.java:31-33`). So a poll in that window answers `UNKNOWN_SCAN_ID` rather than `IN_PROGRESS`. The model starts at the task's first write; `CppExecutionService.GetScanStatus` answers `UNKNOWN_SCAN_ID` for an id with no write yet.
- **The JSON keys differ between the two sides.** The native program prints snake-case keys (`scan_range`, `open_ports`). The report record's fields are camel-case. Whether decoding accepts that is up to the decoder, which is an oracle here.

## Model

| member | source | states |
|---|---|---|
| ServiceNames.Lookup | src/main/java/com/uqac/scan_port/service/PortScanService.java:137 | a port in the table gets its table label; the result is the fallback "Application inconnue" exactly when the port is not in the table (no table label equals the fallback) |
| ServiceNames.WellKnownLabels | src/main/java/com/uqac/scan_port/service/PortScanService.java:18-79 | the table gives 22 SSH, 25 SMTP, 443 HTTPS, 80 HTTP, 3306 MySQL, 27017 MongoDB, 17600 and 17603 Dropbox; ports 8 and 65535 get the fallback |
| ServiceNames.SwitchLabel | src/main/resources/cppScanPort/portScan.cpp:34-86 | a switch case never yields either fallback text; with `SwitchAgreesWithTable`, the switch has a case exactly for the table's ports, with the table's labels |
| ServiceNames.TableInSwitch | src/main/resources/cppScanPort/portScan.cpp:34-84 | every port of the Java table has a case in the native switch returning the same label |
| ServiceNames.SwitchAgreesWithTable | src/main/resources/cppScanPort/portScan.cpp:34-86 | the switch has a case for a port iff the Java table holds it, with the same label, and no table label is either fallback |
| ServiceNames.GetServiceName | src/main/resources/cppScanPort/portScan.cpp:27-87 | a services-database entry wins; otherwise a listed port gets its table label; with no entry the result is "unknown" exactly for ports outside the table |
| ServiceNames.NativeLabelMatchesJavaLabel | src/main/resources/cppScanPort/portScan.cpp:34-86 | with no services-database entry, the native name is the Java label, with "Application inconnue" turned into "unknown" |
| ServiceNames.LookupIsSwitchWithJavaFallback | src/main/java/com/uqac/scan_port/service/PortScanService.java:137 | the Java lookup equals the native switch with the Java fallback |
| ServiceNames.NativeLabelsWithoutSystemEntry | src/main/resources/cppScanPort/portScan.cpp:27-87 | with no services-database entry, 22 is SSH, 443 is HTTPS and 8 is "unknown" |
| PortRange.Range | src/main/resources/cppScanPort/portScan.cpp:175 | the ports a `for (port = start; port <= end; ++port)` loop visits: Count(start, end) of them, the i-th being start + i, none when start > end |
| PortScanService.ScanPort | src/main/java/com/uqac/scan_port/service/PortScanService.java:134-143 | the task returns a result iff the connection succeeded, with the port and its table label; it returns null on an I/O error; it throws iff the probe crashed |
| PortScanService.JoinAll | src/main/java/com/uqac/scan_port/service/PortScanService.java:103-112 | the joined list holds a result iff some future returned it (null and failed futures add nothing and do not stop the loop), and it is no longer than the futures list |
| PortScanService.ScanPortsMembership | src/main/java/com/uqac/scan_port/service/PortScanService.java:91-123 | a result is in the output iff its port is in [start, end], its probe connected, and its label is the table label |
| PortScanService.ScanPortsReportsExactlyOpenPorts | src/main/java/com/uqac/scan_port/service/PortScanService.java:91-123 | a port appears in the output iff it lies in the range and its probe connected; nothing outside the range is reported |
| PortScanService.ScanPortsEnriched | src/main/java/com/uqac/scan_port/service/PortScanService.java:137 | every reported result carries the table label (or fallback) of its port |
| PortScanService.JoinAscending | src/main/java/com/uqac/scan_port/service/PortScanService.java:97-112 | submitting futures for strictly ascending ports and joining them in list order gives results strictly ascending by port |
| PortScanService.ScanPortsStrictlyAscending | src/main/java/com/uqac/scan_port/service/PortScanService.java:97-112 | the output is strictly ascending by port, hence without duplicates, whatever order the tasks ran in |
| PortScanService.SubmitAll | src/main/java/com/uqac/scan_port/service/PortScanService.java:97-100 | one future per port, in the order the ports were submitted, the i-th being the task for the i-th port |
| PortScanService.ScanPorts | src/main/java/com/uqac/scan_port/service/PortScanService.java:91-123 | at most one result per port of the range; an inverted range gives an empty list; which results and in what order is stated by `ScanPortsMembership`, `ScanPortsReportsExactlyOpenPorts` and `ScanPortsStrictlyAscending` |
| PortScanService.FailedProbesAreInterchangeable | src/main/java/com/uqac/scan_port/service/PortScanService.java:103-112 | the output depends only on which probes connected: an I/O error and a crashed task are indistinguishable and disturb no other port |
| PortScanCpp.TimeoutToTimeval | src/main/resources/cppScanPort/portScan.cpp:105-107 | the seconds and microseconds add up to exactly the requested milliseconds; for a non-negative timeout the microseconds stay within [0, 999000]; for a negative one both parts are non-positive (C truncation) |
| PortScanCpp.ScanPorts | src/main/resources/cppScanPort/portScan.cpp:169-190 | every port of [start, end] is probed once in ascending order; the result lists exactly the open ports of the range, ascending, each named by getServiceName; an inverted range gives an empty list |
| PortScanCpp.ScanStep | src/main/resources/cppScanPort/portScan.cpp:178-183 | one iteration extends a correct result for the ports below `port` to a correct result up to `port` |
| PortScanCpp.ScanResultIsUnique | src/main/resources/cppScanPort/portScan.cpp:169-190 | two lists that both meet the scan's contract are equal: the oracles determine the output |
| PortScanCpp.PortInfosRoundTrip | src/main/resources/cppScanPort/portScan.cpp:220-225 | the `open_ports` array decodes back to the open-port list, in order |
| PortScanCpp.ReportJson | src/main/resources/cppScanPort/portScan.cpp:214-225 | the document has exactly the keys host, scan_range and open_ports; scan_range has exactly start and end; open_ports has one entry per open port, each with exactly port and service; the document decodes back to the host, the range and the open ports, in order |
| PortScanCpp.ParseArguments | src/main/resources/cppScanPort/portScan.cpp:199-208 | usage iff fewer than two arguments; failure iff `stoi` rejects a given start, end or timeout; otherwise the host is argv[1] and each missing number defaults to 1, 65535 or 200 |
| PortScanCpp.HostOnlyDefaults | src/main/resources/cppScanPort/portScan.cpp:205-208 | with only a host, the range is 1..65535 and the timeout 200 ms |
| PortScanCpp.ExitStatus | src/main/resources/cppScanPort/portScan.cpp:198-235 | the program returns 0 iff it printed the document, returns 1 after the usage message or a caught exception, and ends without returning iff `stoi` threw |
| PortScanCpp.RunProgram | src/main/resources/cppScanPort/portScan.cpp:198-235 | usage iff argc < 2; abort iff a number fails to parse; output iff the arguments parse and nothing throws; the ports probed are exactly the parsed range; the printed document is exactly the `ReportJson` document of what it decodes to, which is the host, the range and a correct scan result |
| CppExecutionService.CompletedStatus | src/main/java/com/uqac/scan_port/service/CppExecutionService.java:89 | the zero-exit status is "COMPLETED: " followed by exactly the captured output, and is terminal |
| CppExecutionService.ExitErrorStatus | src/main/java/com/uqac/scan_port/service/CppExecutionService.java:91 | the non-zero-exit status is "ERROR: Exit code " followed by the decimal exit code, " - " and the captured output, and is terminal |
| CppExecutionService.ExceptionStatus | src/main/java/com/uqac/scan_port/service/CppExecutionService.java:98 | the catch-all status is "EXCEPTION: " followed by exactly the exception message, and is terminal |
| CppExecutionService.DeliveryFailuresAreErrors | src/main/java/com/uqac/scan_port/service/CppExecutionService.java:127-133 | both delivery-failure statuses are "ERROR: " statuses |
| CppExecutionService.ProgramArguments | src/main/java/com/uqac/scan_port/service/CppExecutionService.java:68-73 | the scanner is started with six arguments: the executable, the report id text, the option, then "1", "10000" and "200"; `ScannerAgreement.JobArgumentsAsReadByScanner` states how the scanner reads them |
| CppExecutionService.CallExternalService | src/main/java/com/uqac/scan_port/service/CppExecutionService.java:111-134 | a decoding error escapes; forwarding writes nothing iff decoding and delivery succeed; an unreachable endpoint writes the resource-access status, a 5xx answer the server-error status, and any other delivery failure escapes with its message |
| CppExecutionService.TerminalIsNotInProgress | src/main/java/com/uqac/scan_port/service/CppExecutionService.java:51 | no terminal status is "IN_PROGRESS" or "UNKNOWN_SCAN_ID" |
| CppExecutionService.StatusWrites | src/main/java/com/uqac/scan_port/service/CppExecutionService.java:48-101 | a job writes "IN_PROGRESS" first and then terminal statuses: a missing binary or failed run writes just its exception; a run that exited writes its exit-code verdict second, and a third status iff the forwarding did not succeed, namely the delivery-failure status or the escaping exception |
| CppExecutionService.ApplyWrites | src/main/java/com/uqac/scan_port/service/CppExecutionService.java:39 | writing a job's statuses adds only its id to the store, leaves it holding the last write, and leaves every other entry unchanged |
| CppExecutionService.ExecuteCppProgram | src/main/java/com/uqac/scan_port/service/CppExecutionService.java:47-101 | after the job task returns, its id is in the store with its final, terminal status, and no other entry has changed |
| CppExecutionService.FinalStatus | src/main/java/com/uqac/scan_port/service/CppExecutionService.java:86-100 | the status a job is left in is terminal |
| CppExecutionService.GetScanStatus | src/main/java/com/uqac/scan_port/service/CppExecutionService.java:142-144 | a stored id answers its status; an unknown id answers "UNKNOWN_SCAN_ID"; the query never fails |
| CppExecutionService.PrefixesAreExclusive | src/main/java/com/uqac/scan_port/service/CppExecutionService.java:89-98 | the COMPLETED, ERROR and EXCEPTION prefixes exclude one another, and an exit-code error never equals a delivery-failure status |
| CppExecutionService.FinalStatusByCase | src/main/java/com/uqac/scan_port/service/CppExecutionService.java:86-100 | the final status, case by case: the exception for a missing binary or failed run; the decoding error; the exit-code verdict after a successful delivery; the delivery-failure status; or the exception of any other delivery failure |
| CppExecutionService.CompletedExactlyWhenScanSucceededAndDelivered | src/main/java/com/uqac/scan_port/service/CppExecutionService.java:86-95 | a job ends "COMPLETED: " iff the scanner exited 0 and its output was decoded and delivered; the status then carries the whole captured output |
| CppExecutionService.ExitErrorExactlyWhenNonZeroAndDelivered | src/main/java/com/uqac/scan_port/service/CppExecutionService.java:86-95 | a job ends "ERROR: Exit code " iff the scanner exited non-zero and its output was still decoded and delivered; reading the status back then gives the exit code |
| CppExecutionService.ExitCodeReadBack | src/main/java/com/uqac/scan_port/service/CppExecutionService.java:91 | reading the text after "ERROR: Exit code " up to the first space gives back the exit code, whatever the scanner printed |
| CppExecutionService.ExitErrorCodeReadable | src/main/java/com/uqac/scan_port/service/CppExecutionService.java:86-95 | when a job ends with the exit-code verdict, its status is exactly "ERROR: Exit code <code> - <output>", and reading it gives the scanner's exit code |
| CppExecutionService.DeliveryFailureOverridesVerdict | src/main/java/com/uqac/scan_port/service/CppExecutionService.java:125-133 | an unreachable endpoint or a 5xx answer leaves the matching "ERROR: ... while posting scan result" status, whatever the exit code was |
| CppExecutionService.ExceptionExactlyWhenSomethingThrew | src/main/java/com/uqac/scan_port/service/CppExecutionService.java:97-100 | a job ends "EXCEPTION: " iff the run failed, the output did not decode, or the delivery failed in an unrecognised way; a missing binary gives its fixed message |
| CppExecutionService.UndecodableFailedScanEndsInException | src/main/java/com/uqac/scan_port/service/CppExecutionService.java:113 | a non-zero exit with undecodable output ends in "EXCEPTION: <decoding error>", not in an "ERROR: " status |
| CppExecutionService.StatusQueryAfterExecution | src/main/java/com/uqac/scan_port/service/CppExecutionService.java:142-144 | after the task returns, querying its id answers its final status (never IN_PROGRESS or UNKNOWN_SCAN_ID), and every other id answers as before |
| CppExecutionService.PollerSeesProgressThenTerminal | src/main/java/com/uqac/scan_port/service/CppExecutionService.java:51-98 | a poller sees IN_PROGRESS after the first write and a terminal status after every later write, so a job never returns to IN_PROGRESS; after the second write of a run that exited it sees the exit-code verdict, and after the last write the final status |
| Text.NatToString | src/main/java/com/uqac/scan_port/service/CppExecutionService.java:91 | the decimal text of a number is non-empty and all digits, with no leading zero, as Java's string conversion writes it |
| Text.IntToStringRoundTrip | src/main/java/com/uqac/scan_port/service/CppExecutionService.java:91 | the exit code written into the status reads back as the same integer |
| Text.CaptureOutput | src/main/java/com/uqac/scan_port/service/CppExecutionService.java:79-84 | no lines give the empty text; otherwise the captured text ends with a newline |
| Text.CaptureOutputLength | src/main/java/com/uqac/scan_port/service/CppExecutionService.java:79-84 | the captured text is as long as the lines plus one newline each |
| Text.SplitCaptureRoundTrip | src/main/java/com/uqac/scan_port/service/CppExecutionService.java:79-84 | reading the captured text back line by line gives exactly the lines read from the process |
| ScannerAgreement.NativeScanMatchesJavaScan | src/main/resources/cppScanPort/portScan.cpp:169-190 | on the same network, the native and Java scans report the same ports in the same order; without a services-database entry the labels agree, up to the fallback text |
| ScannerAgreement.JobArgumentsAsReadByScanner | src/main/java/com/uqac/scan_port/service/CppExecutionService.java:68-73 | the scanner reads the job's arguments as host = report id, start = the option, end = 1, timeout = 10000 ms; a non-numeric option aborts it; a start above 1 gives an empty range |

## Left out

- The network: the Java socket connect and the C++ `isPortOpen` (socket, non-blocking connect, `select`, `getsockopt`, host-name resolution) are oracles. Only the timeout split is modelled.
- The thread pool: 50 worker threads, `shutdown` and the one-minute `awaitTermination`. The ordered join makes the result independent of scheduling, so tasks are evaluated in submission order. An `InterruptedException` on the joining thread is folded into the failed-future case.
- The probe timeout constant of the Java scanner (500 ms) is passed to the socket, which is an oracle, so it plays no part in the model.
- `getservbyport`, `std::stoi`, the subprocess, Jackson decoding and the `RestTemplate` POST are oracles (function parameters).
  - `std::stoi` failing is one case, whether it throws `invalid_argument` or `out_of_range`.
  - Which delivery failure occurs is the oracle's answer.
- Extracting the binary to a temporary file, making it executable, the process builder and the merged error stream are left out. They are reduced to the `ProcessRun` outcome (missing binary, I/O failure, or the lines and exit code).
- Text serialisation of the JSON document (`dump(4)` with the leading blank line) is left out. The document is modelled as a JSON value, and decoding works on that value.
- Logging, the usage text on standard error, the controllers, the DTO getters and setters, and the id generation of the controllers are left out.
- `ServiceRequest` is modelled only through the two values the job reads from it: the decimal text of its report id and its option string (`CppExecutionService.java:70-71`).
- PortScanCpp.ScanPorts: integers are unbounded, so the C++ loop's overflow when `end_port` is `INT_MAX` is not modelled.
- PortScanService.ScanPorts: the same applies to the Java loop.
- PortScanCpp.RunProgram: `raised` only covers an exception thrown after the scan (while building or printing the document). An exception in the middle of the scan would stop the probing early; that case is not modelled.
- CppExecutionService.ExecuteCppProgram: an exception message is supplied by the oracle as text. Java renders a null message as "null", and that rendering is left to the oracle. `Error`s that escape the `catch (Exception e)` block are not modelled.
