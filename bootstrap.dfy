/**
 * The bootstrap's own copy of the Node.js version check, which runs before the worker
 * exists and reports to the console instead of the log stream.
 */
module Bootstrap {
  import opened Wrappers
  import opened Text
  import opened Constants
  import opened Rpc
  import Util

  const LogPrefix: string := "LanguageWorkerConsoleLog"
  const ErrorPrefix: string := LogPrefix + "[error] "
  const WarnPrefix: string := LogPrefix + "[warn] "

  /** A line written with `console.warn` or `console.error`. */
  datatype ConsoleLine = ConsoleWarn(text: string) | ConsoleError(text: string)

  /** What the check printed, and the error it rethrew if it threw. */
  datatype BootstrapCheck = BootstrapCheck(output: seq<ConsoleLine>, thrown: Option<Exception>)

  /**
   * The line the bootstrap prints for a major version on the month `today`: a warning
   * when the major is missing from either table, an error from its end-of-life month on,
   * a warning from its warning month on, and nothing before that.
   */
  function ConsoleClassify(major: string, today: string): Option<ConsoleLine> {
    if major !in NodeEolWarningDates || major !in NodeEolDates
       || NodeEolWarningDates[major] == "" || NodeEolDates[major] == "" then
      Some(ConsoleWarn(WarnPrefix + ("Incompatible Node.js version " + major
        + ". Refer to our documentation to see the Node.js versions supported by each version of Azure Functions: "
        + UpgradeUrl)))
    else if !LexLess(today, NodeEolDates[major]) then
      Some(ConsoleError(ErrorPrefix + ("Node.js " + major + " reached EOL on " + NodeEolDates[major]
        + ". Please upgrade to a supported version: " + UpgradeUrl)))
    else if !LexLess(today, NodeEolWarningDates[major]) then
      Some(ConsoleWarn(WarnPrefix + ("Node.js " + major + " will reach EOL on " + NodeEolDates[major]
        + ". Consider upgrading: " + UpgradeUrl)))
    else None
  }

  /**
   * `validateNodeVersion` of the bootstrap, with the clock reading `today` as an input:
   * a version that does not split into three parts at '.' prints an error and is
   * rethrown; otherwise the major's line, if any, is printed.
   */
  function ValidateNodeVersion(version: string, today: string): BootstrapCheck {
    var versionSplit := Split(version, '.');
    if |versionSplit| != 3 then
      var err := Exception(PlainErrorKind, "Could not parse Node.js version: '" + version + "'", false);
      BootstrapCheck([ConsoleError(ErrorPrefix + ("Error validating Node.js version. " + ErrorToString(err)))], Some(err))
    else
      match ConsoleClassify(versionSplit[0], today)
      case Some(line) => BootstrapCheck([line], None)
      case None => BootstrapCheck([], None)
  }

  /** The bootstrap's line for a major carries the worker's record: same message, and Error as error, Warning as warning. */
  lemma ClassifyAgrees(major: string, today: string)
    ensures match Util.ClassifyMajor(major, today)
      case None => ConsoleClassify(major, today).None?
      case Some(entry) =>
        ConsoleClassify(major, today)
          == Some(if entry.level == Error then ConsoleError(ErrorPrefix + entry.message)
                  else ConsoleWarn(WarnPrefix + entry.message))
  {
  }

  /**
   * The bootstrap and the worker agree on every version and date: a parse error is
   * printed as an error and rethrown; a Warning record is a warning line and an Error
   * record an error line with the same message; no record, no output.
   */
  lemma AgreesWithWorker(version: string, today: string)
    ensures var b := ValidateNodeVersion(version, today);
      match Util.GetNodeVersionLog(version, today)
      case Failure(e) =>
        b == BootstrapCheck([ConsoleError(ErrorPrefix + Util.ValidationErrorMessage(e))], Some(e))
      case Success(None) => b == BootstrapCheck([], None)
      case Success(Some(entry)) =>
        && b.thrown.None?
        && (entry.level == Warning ==> b.output == [ConsoleWarn(WarnPrefix + entry.message)])
        && (entry.level == Error ==> b.output == [ConsoleError(ErrorPrefix + entry.message)])
  {
    var parts := Split(version, '.');
    if |parts| == 3 {
      ClassifyAgrees(parts[0], today);
    }
  }

  /** A version that does not have three parts is reported on the error console and rethrown. */
  lemma UnparsableVersionRethrown(version: string, today: string)
    requires Count(version, '.') != 2
    ensures ValidateNodeVersion(version, today).thrown == Some(Util.ParseError(version))
    ensures |ValidateNodeVersion(version, today).output| == 1 && ValidateNodeVersion(version, today).output[0].ConsoleError?
  {
  }
}
