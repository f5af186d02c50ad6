/**
 * Handling the host's request to reload the environment: a fixed sequence that resets
 * the application, replaces the process environment, optionally moves to a new
 * function app directory and starts the application there, and re-checks the Node.js
 * version. Nothing is rolled back when a later step fails.
 */
module EnvironmentReload {
  import opened Wrappers
  import opened Text
  import opened Rpc
  import opened Hooks
  import opened App
  import opened Worker
  import opened Util
  import opened NodeProcess

  type WorkerMetadata = map<string, string>
  type Capabilities = map<string, string>

  datatype CapabilitiesUpdateStrategy = Merge | Replace

  datatype FunctionEnvironmentReloadRequest = FunctionEnvironmentReloadRequest(
    environmentVariables: Option<map<string, string>>,
    functionAppDirectory: Option<string>)

  datatype FunctionEnvironmentReloadResponse = FunctionEnvironmentReloadResponse(
    workerMetadata: Option<WorkerMetadata>,
    capabilities: Option<Capabilities>,
    capabilitiesUpdateStrategy: Option<CapabilitiesUpdateStrategy>)

  /**
   * What the handler's collaborators answer: path equality, the worker metadata before
   * and after the application starts, whether the directory change and the start
   * succeed, the capabilities, and the clock reading the version check uses.
   */
  datatype Collaborators = Collaborators(
    isPathEqual: (string, string) -> bool,
    metadataAfterReset: WorkerMetadata,
    chdirError: Option<Exception>,
    startApp: Outcome<Exception>,
    metadataAfterStart: WorkerMetadata,
    capabilities: Result<Capabilities, Exception>,
    today: string)

  /** A directory counts as given when it is present and not empty. */
  predicate IsSet(dir: Option<string>) {
    dir.Some? && dir.value != ""
  }

  /** The default response carries the worker metadata and nothing else. */
  function GetDefaultResponse(metadata: WorkerMetadata): (r: FunctionEnvironmentReloadResponse)
    ensures r.workerMetadata == Some(metadata) && r.capabilities.None? && r.capabilitiesUpdateStrategy.None?
  {
    FunctionEnvironmentReloadResponse(Some(metadata), None, None)
  }

  const NotDefinedRecord: RpcLog := SystemLog("FunctionEnvironmentReload functionAppDirectory is not defined", Debug)
  const NotChangedRecord: RpcLog := SystemLog("FunctionEnvironmentReload functionAppDirectory has not changed", Debug)

  function ReloadingRecord(count: nat): RpcLog {
    SystemLog("Reloading environment variables. Found " + NatToString(count) + " variables to reload.", Information)
  }

  function ChangingDirectoryRecord(dir: string): RpcLog {
    SystemLog("Changing current working directory to " + dir, Information)
  }

  /**
   * The remarks on the requested directory: "not defined" exactly when none is given,
   * "has not changed" exactly when both the current and the requested directory are set
   * and the same path; never both.
   */
  function DirectoryNotices(requested: Option<string>, current: Option<string>, isPathEqual: (string, string) -> bool)
    : (r: seq<RpcLog>)
    ensures |r| <= 1
    ensures NotDefinedRecord in r <==> !IsSet(requested)
    ensures NotChangedRecord in r <==> IsSet(current) && IsSet(requested) && isPathEqual(current.value, requested.value)
  {
    assert NotDefinedRecord.message.value[47] != NotChangedRecord.message.value[47];
    (if !IsSet(requested) then [NotDefinedRecord] else [])
    + (if IsSet(current) && IsSet(requested) && isPathEqual(current.value, requested.value) then [NotChangedRecord] else [])
  }

  /** The variables the process ends up with: the request's, none when it has none. */
  function RequestedVariables(request: FunctionEnvironmentReloadRequest): map<string, string> {
    if request.environmentVariables.Some? then request.environmentVariables.value else map[]
  }

  /** The records of the steps up to the new environment: the directory remarks and the count. */
  function LeadingRecords(request: FunctionEnvironmentReloadRequest, current: Option<string>,
                          isPathEqual: (string, string) -> bool): seq<RpcLog>
  {
    DirectoryNotices(request.functionAppDirectory, current, isPathEqual)
    + [ReloadingRecord(|RequestedVariables(request)|)]
  }

  /** The announcement of a move, written only when a directory is given. */
  function MoveRecords(dir: Option<string>): seq<RpcLog> {
    if IsSet(dir) then [ChangingDirectoryRecord(dir.value)] else []
  }

  /** Moving to a given directory fails when the directory change or the start of the app fails. */
  predicate MoveFails(dir: Option<string>, collaborators: Collaborators) {
    IsSet(dir) && (collaborators.chdirError.Some? || collaborators.startApp.Fail?)
  }

  /** The records of the steps after the new environment: the move, then the version check unless the move failed. */
  function TrailingRecords(dir: Option<string>, collaborators: Collaborators, version: string): seq<RpcLog> {
    MoveRecords(dir) + (if MoveFails(dir, collaborators) then [] else NodeVersionRecords(version, collaborators.today))
  }

  /** Every record a reload writes to an initialised stream, in order. */
  function ReloadRecords(request: FunctionEnvironmentReloadRequest, current: Option<string>,
                         collaborators: Collaborators, version: string): seq<RpcLog>
  {
    LeadingRecords(request, current, collaborators.isPathEqual)
    + TrailingRecords(request.functionAppDirectory, collaborators, version)
  }

  lemma AppendAssociative(a: seq<RpcLog>, b: seq<RpcLog>, c: seq<RpcLog>)
    ensures a + b + c == a + (b + c)
  {
  }

  /** The answer of the version check and the capability query, given the response built so far. */
  function ValidationAnswer(check: Result<Option<NodeVersionLog>, Exception>, response: FunctionEnvironmentReloadResponse,
                            capabilities: Result<Capabilities, Exception>): Result<FunctionEnvironmentReloadResponse, Exception>
  {
    if check.Failure? then Failure(check.error)
    else if capabilities.Failure? then Failure(capabilities.error)
    else Success(response.(capabilities := Some(capabilities.value),
                           capabilitiesUpdateStrategy := Some(CapabilitiesUpdateStrategy.Replace)))
  }

  /** The response as it stands before the version check: refreshed metadata once the app has started. */
  function MovedResponse(dir: Option<string>, collaborators: Collaborators): FunctionEnvironmentReloadResponse {
    var response := GetDefaultResponse(collaborators.metadataAfterReset);
    if IsSet(dir) then response.(workerMetadata := Some(collaborators.metadataAfterStart)) else response
  }

  /** What a reload on an initialised stream answers once the environment has been replaced. */
  function ReloadAnswer(dir: Option<string>, collaborators: Collaborators, version: string)
    : Result<FunctionEnvironmentReloadResponse, Exception>
  {
    if IsSet(dir) && collaborators.chdirError.Some? then Failure(collaborators.chdirError.value)
    else if IsSet(dir) && collaborators.startApp.Fail? then Failure(collaborators.startApp.error)
    else ValidationAnswer(GetNodeVersionLog(version, collaborators.today), MovedResponse(dir, collaborators),
                          collaborators.capabilities)
  }

  /**
   * The first failing step decides the answer: the directory change, then the start,
   * then the version check (an unparsable version's error), then the capability query.
   * A reload answers successfully exactly when none of them fails, and then with the
   * current metadata, the capabilities and the `replace` strategy.
   */
  lemma ReloadAnswerOutcomes(dir: Option<string>, collaborators: Collaborators, version: string)
    ensures var r := ReloadAnswer(dir, collaborators, version);
      var parsable := Count(version, '.') == 2;
      && (r.Success? <==> !MoveFails(dir, collaborators) && parsable && collaborators.capabilities.Success?)
      && (IsSet(dir) && collaborators.chdirError.Some? ==> r == Failure(collaborators.chdirError.value))
      && (IsSet(dir) && collaborators.chdirError.None? && collaborators.startApp.Fail? ==>
            r == Failure(collaborators.startApp.error))
      && (!MoveFails(dir, collaborators) && !parsable ==> r == Failure(ParseError(version)))
      && (!MoveFails(dir, collaborators) && parsable && collaborators.capabilities.Failure? ==>
            r == Failure(collaborators.capabilities.error))
      && (r.Success? ==> r.value == FunctionEnvironmentReloadResponse(
            Some(if IsSet(dir) then collaborators.metadataAfterStart else collaborators.metadataAfterReset),
            Some(collaborators.capabilities.value), Some(CapabilitiesUpdateStrategy.Replace)))
  {
  }

  /** How far a reload got before it returned or threw. */
  datatype ReloadProgress = NothingDone | AppWasReset | EnvironmentReplaced | DirectoryChanged | Completed

  function Step(progress: ReloadProgress): nat {
    match progress
    case NothingDone => 0
    case AppWasReset => 1
    case EnvironmentReplaced => 2
    case DirectoryChanged => 3
    case Completed => 4
  }

  /**
   * The first two steps of a reload: the remarks on the requested directory, each
   * written as it applies; without a stream the first remark throws.
   */
  method LogDirectoryNotices(w: WorkerContext, requested: Option<string>, isPathEqual: (string, string) -> bool)
    returns (o: Outcome<Exception>)
    modifies w
    ensures w.OnlyStreamChanged()
    ensures var notices := DirectoryNotices(requested, w.app.functionAppDirectory, isPathEqual);
      && (old(w.rawEventStream).None? ==>
            w.rawEventStream.None? && o == (if notices == [] then Pass else Fail(NotInitializedError())))
      && (old(w.rawEventStream).Some? ==>
            o == Pass && w.rawEventStream == Some(old(w.rawEventStream.value).(written := old(w.Written()) + notices)))
  {
    o := Pass;
    ghost var notices := DirectoryNotices(requested, w.app.functionAppDirectory, isPathEqual);
    if !IsSet(requested) {
      SystemRecordUnchanged(NotDefinedRecord, w.app.logHooks);
      o := w.Log(NotDefinedRecord, None);
      if o.Fail? {
        return;
      }
    }
    if IsSet(w.app.functionAppDirectory) && IsSet(requested) && isPathEqual(w.app.functionAppDirectory.value, requested.value) {
      SystemRecordUnchanged(NotChangedRecord, w.app.logHooks);
      o := w.Log(NotChangedRecord, None);
    }
    assert notices == if !IsSet(requested) then [NotDefinedRecord]
      else if IsSet(w.app.functionAppDirectory) && isPathEqual(w.app.functionAppDirectory.value, requested.value)
      then [NotChangedRecord] else [];
    assert old(w.Written()) + [] == old(w.Written());
  }

  /**
   * The directory steps of a reload: announce the move, change to the directory, start
   * the application there. The first failure is returned; `changed` says whether the
   * directory change happened.
   */
  method MoveAndStart(w: WorkerContext, p: Process, dir: string, collaborators: Collaborators)
    returns (o: Outcome<Exception>, ghost changed: bool)
    modifies w, p
    ensures w.OnlyStreamChanged()
    ensures p.env == old(p.env) && p.exitCode == old(p.exitCode)
    ensures changed ==> p.cwd == dir
    ensures !changed ==> p.cwd == old(p.cwd)
    ensures old(w.rawEventStream).None? ==> o == Fail(NotInitializedError()) && w.rawEventStream.None? && !changed
    ensures old(w.rawEventStream).Some? ==>
      && w.rawEventStream == Some(old(w.rawEventStream.value).(written := old(w.Written()) + [ChangingDirectoryRecord(dir)]))
      && (collaborators.chdirError.Some? ==> o == Fail(collaborators.chdirError.value) && !changed)
      && (collaborators.chdirError.None? ==> o == collaborators.startApp && changed)
  {
    changed := false;
    var changing := ChangingDirectoryRecord(dir);
    SystemRecordUnchanged(changing, w.app.logHooks);
    o := w.Log(changing, None);
    if o.Fail? {
      return;
    }
    o := p.Chdir(dir, collaborators.chdirError);
    if o.Fail? {
      return;
    }
    changed := true;
    o := collaborators.startApp;
  }

  /**
   * The steps of a reload up to the new environment: the directory remarks, the reset
   * of the application, the record counting the requested variables, and the
   * replacement of the environment by exactly those variables.
   */
  method ResetAndReplaceEnvironment(w: WorkerContext, p: Process, request: FunctionEnvironmentReloadRequest,
                                    isPathEqual: (string, string) -> bool)
    returns (o: Outcome<Exception>, ghost progress: ReloadProgress)
    modifies w, p
    ensures w.defaultProgrammingModel == old(w.defaultProgrammingModel) && w.rawId == old(w.rawId)
    ensures w.rawHostVersion == old(w.rawHostVersion) && w.hookCalls == old(w.hookCalls)
    ensures p.cwd == old(p.cwd) && p.exitCode == old(p.exitCode)
    ensures Step(progress) <= 2 && (o.Pass? <==> progress == EnvironmentReplaced)
    ensures Step(progress) == 0 ==> w.app == old(w.app)
    ensures Step(progress) >= 1 ==> fresh(w.app) && w.app.Cleared() && w.app.programmingModel == w.defaultProgrammingModel
    ensures Step(progress) < 2 ==> p.env == old(p.env)
    ensures Step(progress) == 2 ==> p.env == RequestedVariables(request)
    ensures old(w.rawEventStream).None? ==> o == Fail(NotInitializedError()) && w.rawEventStream.None?
    ensures old(w.rawEventStream).Some? ==>
      && o == Pass
      && w.rawEventStream == Some(old(w.rawEventStream.value).(written := old(w.Written())
           + LeadingRecords(request, old(w.app.functionAppDirectory), isPathEqual)))
  {
    progress := NothingDone;
    o := LogDirectoryNotices(w, request.functionAppDirectory, isPathEqual);
    if o.Fail? {
      return;
    }
    w.ResetApp();
    progress := AppWasReset;
    var vars := RequestedVariables(request);
    var reloading := ReloadingRecord(|vars|);
    SystemRecordUnchanged(reloading, w.app.logHooks);
    o := w.Log(reloading, None);
    if o.Fail? {
      return;
    }
    p.ReplaceEnvironment(vars);
    progress := EnvironmentReplaced;
    assert old(w.Written()) + LeadingRecords(request, old(w.app.functionAppDirectory), isPathEqual)
      == old(w.Written()) + DirectoryNotices(request.functionAppDirectory, old(w.app.functionAppDirectory), isPathEqual)
         + [reloading];
  }

  /**
   * The last steps of a reload: the version check, then the capabilities, which a
   * completed reload answers with under the `replace` strategy. `validateNodeVersion`
   * appears as its two halves: the caller classifies the version into `check`, and
   * `LogVersionCheck` logs and rethrows as the function does.
   */
  method ValidateAndAnswer(w: WorkerContext, check: Result<Option<NodeVersionLog>, Exception>,
                           response: FunctionEnvironmentReloadResponse, collaborators: Collaborators)
    returns (r: Result<FunctionEnvironmentReloadResponse, Exception>)
    modifies w
    ensures w.OnlyStreamChanged()
    ensures old(w.rawEventStream).Some? ==>
      && w.rawEventStream == Some(old(w.rawEventStream.value).(written := old(w.Written()) + EntryRecords(check)))
      && r == ValidationAnswer(check, response, collaborators.capabilities)
    ensures old(w.rawEventStream).None? ==> w.rawEventStream.None?
    ensures r.Success? ==>
      && collaborators.capabilities.Success?
      && r.value == response.(capabilities := Some(collaborators.capabilities.value),
                              capabilitiesUpdateStrategy := Some(CapabilitiesUpdateStrategy.Replace))
  {
    var validated := LogVersionCheck(w, check);
    if validated.Fail? {
      return Failure(validated.error);
    }
    if collaborators.capabilities.Failure? {
      return Failure(collaborators.capabilities.error);
    }
    r := Success(response.(capabilities := Some(collaborators.capabilities.value),
                           capabilitiesUpdateStrategy := Some(CapabilitiesUpdateStrategy.Replace)));
  }

  /**
   * The move of a reload, when a directory is given: announce it, change to it, start
   * the application there. Without a directory nothing happens.
   */
  method MoveIfGiven(w: WorkerContext, p: Process, dir: Option<string>, collaborators: Collaborators)
    returns (o: Outcome<Exception>, ghost progress: ReloadProgress)
    modifies w, p
    ensures w.OnlyStreamChanged()
    ensures p.env == old(p.env) && p.exitCode == old(p.exitCode)
    ensures progress == EnvironmentReplaced || progress == DirectoryChanged
    ensures progress == EnvironmentReplaced ==> p.cwd == old(p.cwd)
    ensures progress == DirectoryChanged ==> IsSet(dir) && p.cwd == dir.value
    ensures o.Pass? ==> (progress == DirectoryChanged <==> IsSet(dir))
    ensures !IsSet(dir) ==> o == Pass && w.rawEventStream == old(w.rawEventStream)
    ensures old(w.rawEventStream).None? ==> w.rawEventStream.None?
    ensures old(w.rawEventStream).Some? ==>
      && w.rawEventStream == Some(old(w.rawEventStream.value).(written := old(w.Written()) + MoveRecords(dir)))
      && (o.Fail? <==> MoveFails(dir, collaborators))
    ensures old(w.rawEventStream).Some? && IsSet(dir) ==>
      && (collaborators.chdirError.Some? ==> o == Fail(collaborators.chdirError.value) && progress == EnvironmentReplaced)
      && (collaborators.chdirError.None? && collaborators.startApp.Fail? ==>
            o == collaborators.startApp && progress == DirectoryChanged)
  {
    progress := EnvironmentReplaced;
    o := Pass;
    if IsSet(dir) {
      ghost var changed;
      o, changed := MoveAndStart(w, p, dir.value, collaborators);
      if changed {
        progress := DirectoryChanged;
      }
    } else {
      assert old(w.Written()) + [] == old(w.Written());
    }
  }

  /**
   * The steps of a reload after the new environment: the move and start when a
   * directory is given, then the version check and the answer.
   */
  method MoveValidateAndAnswer(w: WorkerContext, p: Process, request: FunctionEnvironmentReloadRequest,
                               collaborators: Collaborators)
    returns (r: Result<FunctionEnvironmentReloadResponse, Exception>, ghost progress: ReloadProgress)
    modifies w, p
    ensures w.OnlyStreamChanged()
    ensures p.env == old(p.env) && p.exitCode == old(p.exitCode)
    ensures progress == EnvironmentReplaced || progress == DirectoryChanged || progress == Completed
    ensures Step(progress) >= 2
    ensures r.Success? <==> progress == Completed
    ensures Step(progress) < 3 || !IsSet(request.functionAppDirectory) ==> p.cwd == old(p.cwd)
    ensures Step(progress) >= 3 && IsSet(request.functionAppDirectory) ==> p.cwd == request.functionAppDirectory.value
    ensures old(w.rawEventStream).None? ==> w.rawEventStream.None?
    ensures old(w.rawEventStream).Some? ==>
      && w.rawEventStream.Some? && w.rawEventStream.value.ended == old(w.rawEventStream.value.ended)
      && w.Written() == old(w.Written()) + TrailingRecords(request.functionAppDirectory, collaborators, p.version)
    ensures old(w.rawEventStream).Some? && IsSet(request.functionAppDirectory) ==>
      && (collaborators.chdirError.Some? ==> r == Failure(collaborators.chdirError.value) && progress == EnvironmentReplaced)
      && (collaborators.chdirError.None? && collaborators.startApp.Fail? ==>
            r == Failure(collaborators.startApp.error) && progress == DirectoryChanged)
    ensures old(w.rawEventStream).Some? ==> r == ReloadAnswer(request.functionAppDirectory, collaborators, p.version)
    ensures r.Success? ==>
      && r.value.workerMetadata == Some(if IsSet(request.functionAppDirectory) then collaborators.metadataAfterStart
                                        else collaborators.metadataAfterReset)
      && collaborators.capabilities.Success?
      && r.value.capabilities == Some(collaborators.capabilities.value)
      && r.value.capabilitiesUpdateStrategy == Some(CapabilitiesUpdateStrategy.Replace)
  {
    var dir := request.functionAppDirectory;
    ghost var written := w.Written();
    var moved;
    moved, progress := MoveIfGiven(w, p, dir, collaborators);
    if moved.Fail? {
      assert w.rawEventStream.Some? ==> TrailingRecords(dir, collaborators, p.version) == MoveRecords(dir) + [];
      return Failure(moved.error), progress;
    }
    var response := GetDefaultResponse(collaborators.metadataAfterReset);
    if IsSet(dir) {
      response := response.(workerMetadata := Some(collaborators.metadataAfterStart));
    }
    assert response == MovedResponse(dir, collaborators);
    var check := GetNodeVersionLog(p.version, collaborators.today);
    r := ValidateAndAnswer(w, check, response, collaborators);
    if r.Success? {
      progress := Completed;
    }
    AppendAssociative(written, MoveRecords(dir), NodeVersionRecords(p.version, collaborators.today));
  }

  /**
   * `handleEvent` for an environment reload. The application is reset before the
   * environment is touched; the environment then holds exactly the requested variables;
   * only a given directory is changed to, and the application started there; a
   * completed reload answers with the capabilities and the `replace` strategy. A step
   * that throws leaves everything before it in place.
   */
  method HandleEnvironmentReload(w: WorkerContext, p: Process, request: FunctionEnvironmentReloadRequest,
                                 collaborators: Collaborators)
    returns (r: Result<FunctionEnvironmentReloadResponse, Exception>, ghost progress: ReloadProgress)
    modifies w, p
    ensures w.defaultProgrammingModel == old(w.defaultProgrammingModel) && w.rawId == old(w.rawId)
    ensures w.rawHostVersion == old(w.rawHostVersion) && w.hookCalls == old(w.hookCalls)
    ensures p.exitCode == old(p.exitCode)
    ensures r.Success? <==> progress == Completed
    ensures Step(progress) == 0 ==> w.app == old(w.app)
    ensures Step(progress) >= 1 ==> fresh(w.app) && w.app.Cleared() && w.app.programmingModel == w.defaultProgrammingModel
    ensures Step(progress) < 2 ==> p.env == old(p.env)
    ensures Step(progress) >= 2 ==> p.env == RequestedVariables(request)
    ensures Step(progress) < 3 || !IsSet(request.functionAppDirectory) ==> p.cwd == old(p.cwd)
    ensures Step(progress) >= 3 && IsSet(request.functionAppDirectory) ==> p.cwd == request.functionAppDirectory.value
    ensures old(w.rawEventStream).None? ==>
      r == Failure(NotInitializedError()) && w.rawEventStream.None? && Step(progress) <= 1
    ensures old(w.rawEventStream).Some? ==>
      && Step(progress) >= 2
      && w.rawEventStream.Some? && w.rawEventStream.value.ended == old(w.rawEventStream.value.ended)
      && w.Written() == old(w.Written()) + ReloadRecords(request, old(w.app.functionAppDirectory), collaborators, p.version)
    ensures old(w.rawEventStream).Some? && IsSet(request.functionAppDirectory) ==>
      && (collaborators.chdirError.Some? ==> r == Failure(collaborators.chdirError.value) && progress == EnvironmentReplaced)
      && (collaborators.chdirError.None? && collaborators.startApp.Fail? ==>
            r == Failure(collaborators.startApp.error) && progress == DirectoryChanged)
    ensures old(w.rawEventStream).Some? ==> r == ReloadAnswer(request.functionAppDirectory, collaborators, p.version)
    ensures r.Success? ==>
      && r.value.workerMetadata == Some(if IsSet(request.functionAppDirectory) then collaborators.metadataAfterStart
                                        else collaborators.metadataAfterReset)
      && collaborators.capabilities.Success?
      && r.value.capabilities == Some(collaborators.capabilities.value)
      && r.value.capabilitiesUpdateStrategy == Some(CapabilitiesUpdateStrategy.Replace)
  {
    var replaced;
    replaced, progress := ResetAndReplaceEnvironment(w, p, request, collaborators.isPathEqual);
    if replaced.Fail? {
      return Failure(replaced.error), progress;
    }
    ghost var app := w.app;
    r, progress := MoveValidateAndAnswer(w, p, request, collaborators);
    assert w.app == app && app.Cleared();
    AppendAssociative(old(w.Written()), LeadingRecords(request, old(w.app.functionAppDirectory), collaborators.isPathEqual),
                      TrailingRecords(request.functionAppDirectory, collaborators, p.version));
  }
}
