/**
 * Reading a flag from the environment, and classifying the running Node.js version
 * against the end-of-life tables.
 */
module Util {
  import opened Wrappers
  import opened Text
  import opened YearMonth
  import opened Constants
  import opened Rpc
  import opened Hooks
  import opened Worker

  /** A value an environment flag may hold; numbers are integers. */
  datatype EnvValue = Undefined | Null | Str(s: string) | Bool(b: bool) | Num(n: int)

  /** `String(val)` for a value that is neither undefined nor null. */
  function JsString(v: EnvValue): string
    requires !v.Undefined? && !v.Null?
  {
    match v
    case Str(s) => s
    case Bool(b) => if b then "true" else "false"
    case Num(n) => IntToString(n)
  }

  /** The pattern `/^(false|0)?$/i`: empty, "0", or "false" in any letter case. */
  predicate MatchesUnsetPattern(s: string) {
    s == "" || s == "0" || EqualsIgnoreAsciiCase(s, "false")
  }

  /** The rendering of an integer matches the pattern exactly when the integer is zero. */
  lemma IntToStringUnset(n: int)
    ensures MatchesUnsetPattern(IntToString(n)) <==> n == 0
  {
    var s := IntToString(n);
    if n < 0 {
      assert s[0] == '-' && ToLowerAscii(s[0]) != ToLowerAscii("false"[0]);
      assert |s| >= 2;
    } else {
      NatToStringNoLeadingZero(n);
      assert IsDigit(s[0]) && ToLowerAscii(s[0]) != ToLowerAscii("false"[0]);
    }
  }

  /** `isEnvironmentVariableSet`: undefined and null read as the empty string. */
  predicate IsEnvironmentVariableSet(v: EnvValue) {
    !MatchesUnsetPattern(if v.Undefined? || v.Null? then "" else JsString(v))
  }

  /**
   * A flag is unset exactly for undefined, null, false, 0, the empty string, "0" and
   * "false" in any letter case; every other value sets it.
   */
  lemma EnvironmentVariableUnsetValues(v: EnvValue)
    ensures !IsEnvironmentVariableSet(v) <==>
      || v.Undefined? || v.Null? || v == Bool(false) || v == Num(0)
      || (v.Str? && (v.s == "" || v.s == "0" || EqualsIgnoreAsciiCase(v.s, "false")))
  {
    if v.Num? {
      IntToStringUnset(v.n);
    }
  }

  /** A record the version check asks to be logged. */
  datatype NodeVersionLog = NodeVersionLog(message: string, level: Level)

  function ParseError(version: string): Exception {
    Exception(PlainErrorKind, "Could not parse Node.js version: '" + version + "'", false)
  }

  function IncompatibleMessage(major: string): string {
    "Incompatible Node.js version " + major
    + ". Refer to our documentation to see the Node.js versions supported by each version of Azure Functions: "
    + UpgradeUrl
  }

  function EolMessage(major: string, eol: string): string {
    "Node.js " + major + " reached EOL on " + eol + ". Please upgrade to a supported version: " + UpgradeUrl
  }

  function NearEolMessage(major: string, eol: string): string {
    "Node.js " + major + " will reach EOL on " + eol + ". Consider upgrading: " + UpgradeUrl
  }

  /**
   * What the version check says about a major version on the month `today`: unknown to
   * either table is incompatible; from its end-of-life month on it is past end of life;
   * from its warning month on it nears it; before that there is nothing to say.
   */
  function ClassifyMajor(major: string, today: string): Option<NodeVersionLog> {
    if major !in NodeEolWarningDates || major !in NodeEolDates
       || NodeEolWarningDates[major] == "" || NodeEolDates[major] == "" then
      Some(NodeVersionLog(IncompatibleMessage(major), Warning))
    else if !LexLess(today, NodeEolDates[major]) then
      Some(NodeVersionLog(EolMessage(major, NodeEolDates[major]), Error))
    else if !LexLess(today, NodeEolWarningDates[major]) then
      Some(NodeVersionLog(NearEolMessage(major, NodeEolDates[major]), Warning))
    else None
  }

  /**
   * `getNodeVersionLog`, with the clock reading `today` as an input: a version that
   * does not split into three parts at '.' is an error; otherwise its first part (the
   * major, 'v' included) is classified.
   */
  function GetNodeVersionLog(version: string, today: string): (r: Result<Option<NodeVersionLog>, Exception>)
    ensures r.Failure? <==> Count(version, '.') != 2
    ensures r.Failure? ==> r.error == ParseError(version)
    ensures r.Success? ==> r.value == ClassifyMajor(TakeUntil(version, '.'), today)
    ensures r.Success? && r.value.Some? ==> r.value.value.level == Warning || r.value.value.level == Error
  {
    var parts := Split(version, '.');
    if |parts| != 3 then Failure(ParseError(version))
    else Success(ClassifyMajor(parts[0], today))
  }

  /** A major missing from the tables is incompatible, whatever the date. */
  lemma UnsupportedMajorIncompatible(major: string, today: string)
    requires major !in SupportedMajors
    ensures ClassifyMajor(major, today) == Some(NodeVersionLog(IncompatibleMessage(major), Warning))
  {
    TablesShareKeys();
  }

  /** The dates of a supported major are present, well formed and in the right order. */
  lemma SupportedMajorDates(major: string)
    requires major in SupportedMajors
    ensures major in NodeEolDates && major in NodeEolWarningDates
    ensures IsYearMonth(NodeEolDates[major]) && IsYearMonth(NodeEolWarningDates[major])
    ensures NodeEolDates[major] != "" && NodeEolWarningDates[major] != ""
    ensures MonthIndex(NodeEolWarningDates[major]) < MonthIndex(NodeEolDates[major])
  {
    TablesShareKeys();
    DatesWellFormed(major);
    WarningPrecedesEol(major);
  }

  /**
   * For a supported major and a well-formed clock reading, the classification follows
   * the calendar: past end of life from the end-of-life month on, nearing it from the
   * warning month on, unremarkable before.
   */
  lemma SupportedMajorByCalendar(major: string, today: string)
    requires major in SupportedMajors && IsYearMonth(today)
    ensures var eol, warn := NodeEolDates[major], NodeEolWarningDates[major];
      && IsYearMonth(eol) && IsYearMonth(warn)
      && (MonthIndex(eol) <= MonthIndex(today) ==>
            ClassifyMajor(major, today) == Some(NodeVersionLog(EolMessage(major, eol), Error)))
      && (MonthIndex(warn) <= MonthIndex(today) < MonthIndex(eol) ==>
            ClassifyMajor(major, today) == Some(NodeVersionLog(NearEolMessage(major, eol), Warning)))
      && (MonthIndex(today) < MonthIndex(warn) ==> ClassifyMajor(major, today).None?)
  {
    SupportedMajorDates(major);
    var eol, warn := NodeEolDates[major], NodeEolWarningDates[major];
    LexOrderIsChronological(today, eol);
    LexOrderIsChronological(today, warn);
  }

  /**
   * Every supported major reaches both remarks: in its warning month it is nearing end
   * of life, in its end-of-life month it is past it.
   */
  lemma BothRemarksReachable(major: string)
    requires major in SupportedMajors
    ensures var eol, warn := NodeEolDates[major], NodeEolWarningDates[major];
      && ClassifyMajor(major, warn) == Some(NodeVersionLog(NearEolMessage(major, eol), Warning))
      && ClassifyMajor(major, eol) == Some(NodeVersionLog(EolMessage(major, eol), Error))
  {
    SupportedMajorDates(major);
    SupportedMajorByCalendar(major, NodeEolWarningDates[major]);
    SupportedMajorByCalendar(major, NodeEolDates[major]);
  }

  /** The message logged when the version check throws. */
  function ValidationErrorMessage(e: Exception): string {
    "Error validating Node.js version. " + ErrorToString(e)
  }

  /** The records the version check writes to an initialised stream for a classification result. */
  function EntryRecords(entry: Result<Option<NodeVersionLog>, Exception>): seq<RpcLog> {
    match entry
    case Failure(e) => [SystemLog(ValidationErrorMessage(e), Error)]
    case Success(Some(log)) => [SystemLog(log.message, log.level)]
    case Success(None) => []
  }

  /** The records `validateNodeVersion` writes to an initialised stream. */
  function NodeVersionRecords(version: string, today: string): (r: seq<RpcLog>)
    ensures |r| <= 1
    ensures |r| == 1 <==> GetNodeVersionLog(version, today).Failure? || GetNodeVersionLog(version, today).value.Some?
  {
    EntryRecords(GetNodeVersionLog(version, today))
  }

  /**
   * The logging half of `validateNodeVersion`: a classification's record is logged as a
   * System record with its message and level, nothing when there is none; a parse error
   * is logged at Error level and rethrown. Without a stream, any attempt to log throws
   * the initialisation error (the catch block's own log throws it again).
   */
  method LogVersionCheck(w: WorkerContext, entry: Result<Option<NodeVersionLog>, Exception>)
    returns (o: Outcome<Exception>)
    modifies w
    ensures w.OnlyStreamChanged()
    ensures old(w.rawEventStream).Some? ==>
      && w.rawEventStream == Some(old(w.rawEventStream.value).(written := old(w.Written()) + EntryRecords(entry)))
      && o == (if entry.Failure? then Fail(entry.error) else Pass)
    ensures old(w.rawEventStream).None? ==>
      && w.rawEventStream.None?
      && o == (if EntryRecords(entry) == [] then Pass else Fail(NotInitializedError()))
  {
    var attempt: Outcome<Exception> := Pass;
    if entry.Failure? {
      attempt := Fail(entry.error);
    } else if entry.value.Some? {
      var record := SystemLog(entry.value.value.message, entry.value.value.level);
      SystemRecordUnchanged(record, w.app.logHooks);
      attempt := w.Log(record, None);
    }
    if attempt.Fail? {
      var record := SystemLog(ValidationErrorMessage(attempt.error), Error);
      SystemRecordUnchanged(record, w.app.logHooks);
      var logged := w.Log(record, None);
      if logged.Fail? {
        return logged;
      }
      return attempt;
    }
    if entry.value.None? {
      assert old(w.Written()) + [] == old(w.Written());
    }
    o := Pass;
  }

  /** `validateNodeVersion`: the version is classified, and the result logged. */
  method ValidateNodeVersion(w: WorkerContext, version: string, today: string) returns (o: Outcome<Exception>)
    modifies w
    ensures w.OnlyStreamChanged()
    ensures old(w.rawEventStream).Some? ==>
      && w.rawEventStream == Some(old(w.rawEventStream.value).(written := old(w.Written()) + NodeVersionRecords(version, today)))
      && o == (if GetNodeVersionLog(version, today).Failure? then Fail(GetNodeVersionLog(version, today).error) else Pass)
    ensures old(w.rawEventStream).None? ==>
      && w.rawEventStream.None?
      && o == (if NodeVersionRecords(version, today) == [] then Pass else Fail(NotInitializedError()))
  {
    o := LogVersionCheck(w, GetNodeVersionLog(version, today));
  }
}
