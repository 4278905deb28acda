/** The scan-job manager: a status store keyed by scan id, the job task that
    runs the native scanner and records its outcome, the forwarding of the
    parsed report to the reporting service, and the status query. The
    process, the JSON parser and the HTTP call are oracles. */
module CppExecutionService {
  import opened Wrappers
  import opened ScanRecords
  import opened Text

  /** `scanStatus`: scan id to status text. */
  type StatusStore = map<string, string>

  const InProgress := "IN_PROGRESS"
  const UnknownScanId := "UNKNOWN_SCAN_ID"
  const MissingBinaryMessage := "portScan binary not found in resources"

  const CompletedPrefix := "COMPLETED: "
  const ErrorPrefix := "ERROR: "
  const ExceptionPrefix := "EXCEPTION: "
  const ExitCodePrefix := "ERROR: Exit code "
  const PostingFailureSuffix := " while posting scan result"
  const ResourceAccessStatus := ErrorPrefix + "Resource access error" + PostingFailureSuffix
  const ServerErrorStatus := ErrorPrefix + "Server error" + PostingFailureSuffix

  /** How running the native scanner went, as seen by the job task. */
  datatype ProcessRun =
    | BinaryMissing                                // the executable is not among the resources
    | IoFailure(message: string)                   // an exception while copying, launching, reading or waiting
    | Exited(lines: seq<string>, exitCode: int)    // every output line read, then the exit code

  /** What the POST to the reporting service does. */
  datatype PostOutcome =
    | Delivered
    | ResourceAccessFailure(message: string)   // endpoint unreachable
    | ServerErrorResponse(message: string)     // 5xx answer
    | OtherFailure(message: string)            // any other exception, e.g. a 4xx answer

  /** What `callExternalService` does to the job: nothing, one status write,
      or an exception it lets escape to the job task. */
  datatype Forwarding = Posted | StatusWritten(status: string) | Raised(message: string)

  /** Everything the job task cannot compute itself. `parse` is the JSON
      decoding of the captured output (an error message when it throws);
      `post` delivers a decoded report. */
  datatype Environment = Environment(
    run: ProcessRun,
    parse: string -> Result<PortScanResult, string>,
    post: PortScanResult -> PostOutcome)

  /** A status a job can be left in once its task has returned. */
  predicate IsTerminal(status: string) {
    StartsWith(status, CompletedPrefix) || StartsWith(status, ErrorPrefix) || StartsWith(status, ExceptionPrefix)
  }

  /** The status of a scanner that exited with 0. */
  function CompletedStatus(output: string): (status: string)
    ensures StartsWith(status, CompletedPrefix) && IsTerminal(status)
    ensures status[|CompletedPrefix|..] == output
  {
    StartsWithConcat(CompletedPrefix, output);
    CompletedPrefix + output
  }

  /** The status of a scanner that exited with any other code. */
  function ExitErrorStatus(exitCode: int, output: string): (status: string)
    ensures StartsWith(status, ExitCodePrefix) && IsTerminal(status)
    ensures status[|ExitCodePrefix|..] == IntToString(exitCode) + " - " + output
  {
    var detail := IntToString(exitCode) + " - " + output;
    StartsWithConcat(ExitCodePrefix, detail);
    assert (ExitCodePrefix + detail)[..|ErrorPrefix|] == ExitCodePrefix[..|ErrorPrefix|] == ErrorPrefix;
    ExitCodePrefix + detail
  }

  /** Reads the exit code out of an exit-code error status: the text after
      the prefix, up to the first space, as a decimal integer. */
  function ReadExitCode(status: string): (code: Option<int>)
    ensures code.Some? ==> StartsWith(status, ExitCodePrefix)
  {
    if StartsWith(status, ExitCodePrefix) then
      var detail := status[|ExitCodePrefix|..];
      ParseInt(detail[..IndexOf(detail, ' ')])
    else None
  }

  /** The exit code can be read back from its error status, whatever the
      scanner printed: the code's text holds no space, so the reader stops
      at the " - " that follows it. */
  lemma ExitCodeReadBack(exitCode: int, output: string)
    ensures ReadExitCode(ExitErrorStatus(exitCode, output)) == Some(exitCode)
  {
    var code := IntToString(exitCode);
    var detail := ExitErrorStatus(exitCode, output)[|ExitCodePrefix|..];
    assert detail == code + (" - " + output);
    IntToStringHasNoSpace(exitCode);
    IndexOfAfterFreePrefix(code, " - " + output, ' ');
    assert detail[..|code|] == code;
    IntToStringRoundTrip(exitCode);
  }

  /** The status left by an exception that reached the job task. */
  function ExceptionStatus(message: string): (status: string)
    ensures StartsWith(status, ExceptionPrefix) && IsTerminal(status)
    ensures status[|ExceptionPrefix|..] == message
  {
    StartsWithConcat(ExceptionPrefix, message);
    ExceptionPrefix + message
  }

  lemma DeliveryFailuresAreErrors()
    ensures StartsWith(ResourceAccessStatus, ErrorPrefix) && IsTerminal(ResourceAccessStatus)
    ensures StartsWith(ServerErrorStatus, ErrorPrefix) && IsTerminal(ServerErrorStatus)
  {
    assert ResourceAccessStatus[..|ErrorPrefix|] == ErrorPrefix;
    assert ServerErrorStatus[..|ErrorPrefix|] == ErrorPrefix;
  }

  /** Arguments of the scanner process: executable path, report id text,
      scan option, then the fixed "1", "10000", "200". */
  function ProgramArguments(executable: string, reportIdText: string, option: string): (argv: seq<string>)
    ensures |argv| == 6 && argv[0] == executable
    ensures argv[1] == reportIdText && argv[2] == option
    ensures argv[3..] == ["1", "10000", "200"]
  {
    [executable, reportIdText, option, "1", "10000", "200"]
  }

  /** `callExternalService`: decode the output, POST it, and turn the two
      recognised delivery failures into status writes. A decoding error or
      any other delivery failure escapes. */
  function CallExternalService(output: string, env: Environment): (f: Forwarding)
    ensures env.parse(output).Failure? ==> f == Raised(env.parse(output).error)
    ensures f == Posted <==> env.parse(output).Success? && env.post(env.parse(output).value) == Delivered
    ensures f.StatusWritten? ==> f.status == ResourceAccessStatus || f.status == ServerErrorStatus
    ensures env.parse(output).Success? ==>
      var outcome := env.post(env.parse(output).value);
      && (outcome.ResourceAccessFailure? ==> f == StatusWritten(ResourceAccessStatus))
      && (outcome.ServerErrorResponse? ==> f == StatusWritten(ServerErrorStatus))
      && (outcome.OtherFailure? ==> f == Raised(outcome.message))
  {
    match env.parse(output)
    case Failure(message) => Raised(message)
    case Success(report) =>
      match env.post(report)
      case Delivered => Posted
      case ResourceAccessFailure(_) => StatusWritten(ResourceAccessStatus)
      case ServerErrorResponse(_) => StatusWritten(ServerErrorStatus)
      case OtherFailure(message) => Raised(message)
  }

  lemma TerminalIsNotInProgress(status: string)
    requires IsTerminal(status)
    ensures status != InProgress && status != UnknownScanId
  {
    var first := status[0];
    if StartsWith(status, CompletedPrefix) {
      assert first == status[..|CompletedPrefix|][0] == 'C';
    } else if StartsWith(status, ErrorPrefix) {
      assert first == status[..|ErrorPrefix|][0] == 'E';
    } else {
      assert first == status[..|ExceptionPrefix|][0] == 'E';
    }
    assert InProgress[0] == 'I' && UnknownScanId[0] == 'U';
  }

  /** The output the task captured, when the process ran to its exit. */
  function CapturedOutput(env: Environment): string
    requires env.run.Exited?
  {
    CaptureOutput(env.run.lines)
  }

  /** Whether the captured output decoded and its delivery succeeded. */
  predicate ForwardedSuccessfully(env: Environment)
    requires env.run.Exited?
  {
    var parsed := env.parse(CapturedOutput(env));
    parsed.Success? && env.post(parsed.value) == Delivered
  }

  /** The exit-code verdict the task writes once the scanner has exited. */
  function Verdict(env: Environment): string
    requires env.run.Exited?
  {
    if env.run.exitCode == 0 then CompletedStatus(CapturedOutput(env))
    else ExitErrorStatus(env.run.exitCode, CapturedOutput(env))
  }

  /** The status writes the job task performs for one scan, in order:
      `IN_PROGRESS`, then the exit-code verdict or an exception, then
      possibly a delivery failure or an exception from forwarding. */
  function StatusWrites(env: Environment): (writes: seq<string>)
    ensures 2 <= |writes| <= 3
    ensures writes[0] == InProgress
    ensures forall i :: 1 <= i < |writes| ==> IsTerminal(writes[i])
    ensures env.run == BinaryMissing ==> writes == [InProgress, ExceptionStatus(MissingBinaryMessage)]
    ensures env.run.IoFailure? ==> writes == [InProgress, ExceptionStatus(env.run.message)]
    ensures env.run.Exited? ==> writes[1] == Verdict(env)
    ensures |writes| == 3 <==> env.run.Exited? && !ForwardedSuccessfully(env)
    ensures |writes| == 3 && CallExternalService(CapturedOutput(env), env).StatusWritten? ==>
      writes[2] == CallExternalService(CapturedOutput(env), env).status
    ensures |writes| == 3 && CallExternalService(CapturedOutput(env), env).Raised? ==>
      writes[2] == ExceptionStatus(CallExternalService(CapturedOutput(env), env).message)
  {
    var verdict := match env.run
      case BinaryMissing => [ExceptionStatus(MissingBinaryMessage)]
      case IoFailure(message) => [ExceptionStatus(message)]
      case Exited(lines, exitCode) =>
        var output := CaptureOutput(lines);
        var exitStatus := if exitCode == 0 then CompletedStatus(output) else ExitErrorStatus(exitCode, output);
        [exitStatus] + match CallExternalService(output, env)
          case Posted => []
          case StatusWritten(status) => [status]
          case Raised(message) => [ExceptionStatus(message)];
    DeliveryFailuresAreErrors();
    [InProgress] + verdict
  }

  /** Performs `writes` on the entry of `scanId`, in order. */
  function ApplyWrites(store: StatusStore, scanId: string, writes: seq<string>): (after: StatusStore)
    ensures after.Keys == if writes == [] then store.Keys else store.Keys + {scanId}
    ensures writes != [] ==> after[scanId] == writes[|writes| - 1]
    ensures forall k :: k in store && k != scanId ==> after[k] == store[k]
    decreases |writes|
  {
    if writes == [] then store else ApplyWrites(store[scanId := writes[0]], scanId, writes[1..])
  }

  /** `executeCppProgram(request, scanId)` run to completion. */
  function ExecuteCppProgram(store: StatusStore, scanId: string, env: Environment): (after: StatusStore)
    ensures after.Keys == store.Keys + {scanId}
    ensures forall k :: k in store && k != scanId ==> after[k] == store[k]
    ensures after[scanId] == FinalStatus(env)
    ensures IsTerminal(after[scanId])
  {
    var writes := StatusWrites(env);
    ApplyWrites(store, scanId, writes)
  }

  /** The status the job is left in. */
  function FinalStatus(env: Environment): (status: string)
    ensures IsTerminal(status)
  {
    var writes := StatusWrites(env);
    writes[|writes| - 1]
  }

  /** `getScanStatus`: the stored status, or the unknown-id marker. */
  function GetScanStatus(store: StatusStore, scanId: string): (status: string)
    ensures scanId in store ==> status == store[scanId]
    ensures scanId !in store ==> status == UnknownScanId
  {
    if scanId in store then store[scanId] else UnknownScanId
  }

  // ---------------------------------------------------------------------------
  // Which outcome leaves which status
  // ---------------------------------------------------------------------------

  /** The three terminal prefixes exclude one another, and an exit-code error
      is never mistaken for a delivery failure. */
  lemma PrefixesAreExclusive(status: string)
    ensures !(StartsWith(status, CompletedPrefix) && StartsWith(status, ErrorPrefix))
    ensures !(StartsWith(status, CompletedPrefix) && StartsWith(status, ExceptionPrefix))
    ensures !(StartsWith(status, ErrorPrefix) && StartsWith(status, ExceptionPrefix))
    ensures StartsWith(status, ExitCodePrefix) ==> status != ResourceAccessStatus && status != ServerErrorStatus
  {
    if StartsWith(status, CompletedPrefix) {
      assert status[0] == status[..|CompletedPrefix|][0] == 'C';
    }
    if StartsWith(status, ErrorPrefix) {
      assert status[1] == status[..|ErrorPrefix|][1] == 'R';
    }
    if StartsWith(status, ExceptionPrefix) {
      assert status[0] == status[..|ExceptionPrefix|][0] == 'E';
      assert status[1] == status[..|ExceptionPrefix|][1] == 'X';
    }
    DeliveryStatusesAreNotExitErrors();
  }

  lemma DeliveryStatusesAreNotExitErrors()
    ensures !StartsWith(ResourceAccessStatus, ExitCodePrefix)
    ensures !StartsWith(ServerErrorStatus, ExitCodePrefix)
  {
    assert ExitCodePrefix[7] == 'E';
    assert ResourceAccessStatus[7] == 'R';
    assert ServerErrorStatus[7] == 'S';
  }

  /** The final status case by case: the last write is the exception of a
      failed run, else the forwarding's exception or delivery-failure status,
      else the exit-code verdict. */
  lemma FinalStatusByCase(env: Environment)
    ensures env.run == BinaryMissing ==> FinalStatus(env) == ExceptionStatus(MissingBinaryMessage)
    ensures env.run.IoFailure? ==> FinalStatus(env) == ExceptionStatus(env.run.message)
    ensures env.run.Exited? && env.parse(CapturedOutput(env)).Failure? ==>
      FinalStatus(env) == ExceptionStatus(env.parse(CapturedOutput(env)).error)
    ensures env.run.Exited? && env.parse(CapturedOutput(env)).Success? ==>
      var outcome := env.post(env.parse(CapturedOutput(env)).value);
      && (outcome == Delivered ==> FinalStatus(env) == Verdict(env))
      && (outcome.ResourceAccessFailure? ==> FinalStatus(env) == ResourceAccessStatus)
      && (outcome.ServerErrorResponse? ==> FinalStatus(env) == ServerErrorStatus)
      && (outcome.OtherFailure? ==> FinalStatus(env) == ExceptionStatus(outcome.message))
  {
    var writes := StatusWrites(env);
    if env.run.Exited? {
      var output := CapturedOutput(env);
      var verdict := Verdict(env);
      match CallExternalService(output, env)
      case Posted =>
        assert writes == [InProgress] + [verdict];
      case StatusWritten(status) =>
        assert writes == [InProgress] + ([verdict] + [status]);
      case Raised(message) =>
        assert writes == [InProgress] + ([verdict] + [ExceptionStatus(message)]);
    }
  }

  /** A job ends `COMPLETED:` exactly when the scanner exited with 0, its
      output decoded and the report was delivered; the status then carries
      the whole captured output. */
  lemma CompletedExactlyWhenScanSucceededAndDelivered(env: Environment)
    ensures StartsWith(FinalStatus(env), CompletedPrefix)
        <==> env.run.Exited? && env.run.exitCode == 0 && ForwardedSuccessfully(env)
    ensures env.run.Exited? && env.run.exitCode == 0 && ForwardedSuccessfully(env) ==>
      FinalStatus(env) == CompletedPrefix + CapturedOutput(env)
  {
    var final := FinalStatus(env);
    FinalStatusByCase(env);
    PrefixesAreExclusive(final);
    DeliveryFailuresAreErrors();
    if env.run.Exited? && env.run.exitCode != 0 && ForwardedSuccessfully(env) {
      assert StartsWith(final, ErrorPrefix);
    }
  }

  /** A job ends with the exit-code error exactly when the scanner exited
      non-zero and the forwarding nevertheless succeeded; the exit code can
      then be read back from the status. */
  lemma ExitErrorExactlyWhenNonZeroAndDelivered(env: Environment)
    ensures StartsWith(FinalStatus(env), ExitCodePrefix)
        <==> env.run.Exited? && env.run.exitCode != 0 && ForwardedSuccessfully(env)
    ensures env.run.Exited? && env.run.exitCode != 0 && ForwardedSuccessfully(env) ==>
      && FinalStatus(env) == ExitCodePrefix + IntToString(env.run.exitCode) + " - " + CapturedOutput(env)
      && ReadExitCode(FinalStatus(env)) == Some(env.run.exitCode)
  {
    var final := FinalStatus(env);
    FinalStatusByCase(env);
    PrefixesAreExclusive(final);
    DeliveryFailuresAreErrors();
    ExitCodePrefixIsError(final);
    ExitErrorCodeReadable(env);
  }

  lemma ExitCodePrefixIsError(status: string)
    ensures StartsWith(status, ExitCodePrefix) ==> StartsWith(status, ErrorPrefix)
  {
    if StartsWith(status, ExitCodePrefix) {
      assert status[..|ErrorPrefix|] == status[..|ExitCodePrefix|][..|ErrorPrefix|];
    }
  }

  /** When the exit-code verdict stands, the status is exactly that verdict
      and gives its code back. */
  lemma ExitErrorCodeReadable(env: Environment)
    ensures env.run.Exited? && env.run.exitCode != 0 && ForwardedSuccessfully(env) ==>
      && FinalStatus(env) == ExitCodePrefix + IntToString(env.run.exitCode) + " - " + CapturedOutput(env)
      && ReadExitCode(FinalStatus(env)) == Some(env.run.exitCode)
  {
    if env.run.Exited? && env.run.exitCode != 0 && ForwardedSuccessfully(env) {
      var status := ExitErrorStatus(env.run.exitCode, CapturedOutput(env));
      FinalStatusByCase(env);
      assert FinalStatus(env) == status;
      SplitAtPrefix(status, ExitCodePrefix);
      ExitCodeReadBack(env.run.exitCode, CapturedOutput(env));
    }
  }

  /** A delivery failure the forwarder recognises replaces the scan's own
      verdict, whatever the exit code was. */
  lemma DeliveryFailureOverridesVerdict(env: Environment)
    requires env.run.Exited? && env.parse(CapturedOutput(env)).Success?
    ensures env.post(env.parse(CapturedOutput(env)).value).ResourceAccessFailure? ==>
      FinalStatus(env) == ResourceAccessStatus
    ensures env.post(env.parse(CapturedOutput(env)).value).ServerErrorResponse? ==>
      FinalStatus(env) == ServerErrorStatus
  {
  }

  /** A job ends `EXCEPTION:` exactly when something threw: the executable is
      missing, launching or reading failed, the output did not decode, or the
      delivery failed in a way the forwarder does not recognise. */
  lemma ExceptionExactlyWhenSomethingThrew(env: Environment)
    ensures StartsWith(FinalStatus(env), ExceptionPrefix)
        <==> || !env.run.Exited?
             || env.parse(CapturedOutput(env)).Failure?
             || env.post(env.parse(CapturedOutput(env)).value).OtherFailure?
    ensures env.run == BinaryMissing ==> FinalStatus(env) == ExceptionPrefix + MissingBinaryMessage
  {
    FinalStatusByCase(env);
    if env.run.Exited? && env.parse(CapturedOutput(env)).Success? {
      var outcome := env.post(env.parse(CapturedOutput(env)).value);
      if outcome == Delivered {
        PrefixesAreExclusive(Verdict(env));
      } else if outcome.ResourceAccessFailure? || outcome.ServerErrorResponse? {
        DeliveryFailuresAreErrors();
        PrefixesAreExclusive(ResourceAccessStatus);
        PrefixesAreExclusive(ServerErrorStatus);
      }
    }
  }

  /** A scanner that exits non-zero with output that does not decode leaves
      the job in `EXCEPTION:`, not in `ERROR:`: the decoding error overwrites
      the exit-code verdict. */
  lemma UndecodableFailedScanEndsInException(env: Environment)
    requires env.run.Exited? && env.run.exitCode != 0
    requires env.parse(CapturedOutput(env)).Failure?
    ensures FinalStatus(env) == ExceptionPrefix + env.parse(CapturedOutput(env)).error
    ensures !StartsWith(FinalStatus(env), ErrorPrefix)
  {
    PrefixesAreExclusive(FinalStatus(env));
  }

  // ---------------------------------------------------------------------------
  // The store as callers see it
  // ---------------------------------------------------------------------------

  /** After the task returns, a status query for its id answers the final
      status, which is neither `IN_PROGRESS` nor the unknown-id marker, and
      every other id, known or not, answers as before. */
  lemma StatusQueryAfterExecution(store: StatusStore, scanId: string, env: Environment, other: string)
    requires other != scanId
    ensures GetScanStatus(ExecuteCppProgram(store, scanId, env), scanId) == FinalStatus(env)
    ensures FinalStatus(env) != InProgress && FinalStatus(env) != UnknownScanId
    ensures GetScanStatus(ExecuteCppProgram(store, scanId, env), other) == GetScanStatus(store, other)
  {
    TerminalIsNotInProgress(FinalStatus(env));
  }

  /** What a concurrent poller can see while the task runs: right after the
      first write the job is `IN_PROGRESS`; from the second write on it is
      terminal, so it never returns to `IN_PROGRESS`. */
  lemma PollerSeesProgressThenTerminal(store: StatusStore, scanId: string, env: Environment, n: nat)
    requires 1 <= n <= |StatusWrites(env)|
    ensures n == 1 ==> GetScanStatus(ApplyWrites(store, scanId, StatusWrites(env)[..n]), scanId) == InProgress
    ensures n >= 2 ==> IsTerminal(GetScanStatus(ApplyWrites(store, scanId, StatusWrites(env)[..n]), scanId))
    ensures n == 2 && env.run.Exited? ==>
      GetScanStatus(ApplyWrites(store, scanId, StatusWrites(env)[..n]), scanId) == Verdict(env)
    ensures n == |StatusWrites(env)| ==>
      GetScanStatus(ApplyWrites(store, scanId, StatusWrites(env)[..n]), scanId) == FinalStatus(env)
  {
    var writes := StatusWrites(env)[..n];
    assert writes[|writes| - 1] == StatusWrites(env)[n - 1];
  }
}
