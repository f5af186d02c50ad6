/** Handling the host's request to load one function. */
module FunctionLoading {
  import opened Wrappers
  import opened Rpc
  import opened Hooks
  import opened Worker

  /** A `string | null | undefined` property. */
  datatype NullableString = UndefinedString | NullString | GivenString(value: string)

  /** `RpcFunctionMetadata`, reduced to the function's name. */
  datatype RpcFunctionMetadata = RpcFunctionMetadata(name: NullableString)

  datatype FunctionLoadRequest = FunctionLoadRequest(functionId: Option<string>, metadata: Option<RpcFunctionMetadata>)

  datatype FunctionLoadResponse = FunctionLoadResponse(functionId: Option<string>)

  /** The default response echoes the request's function id and nothing else. */
  function GetDefaultResponse(request: FunctionLoadRequest): (r: FunctionLoadResponse)
    ensures r.functionId == request.functionId
  {
    FunctionLoadResponse(request.functionId)
  }

  /** The System Debug record acknowledging the request. */
  function ReceivedLoadRecord(workerId: string): RpcLog {
    SystemLog("Worker " + workerId + " received FunctionLoadRequest", Debug)
  }

  /** How a template literal renders a nullable string. */
  function Rendered(s: NullableString): string {
    match s
    case UndefinedString => "undefined"
    case NullString => "null"
    case GivenString(value) => value
  }

  /**
   * A failed legacy load, rethrown: flagged as a system error, its message wrapped with
   * the function's name; the kind of error is kept.
   */
  function LoadFailure(e: Exception, functionName: NullableString): (r: Exception)
    ensures r.kind == e.kind && r.isSystemError
    ensures r.message == "Worker was unable to load function " + Rendered(functionName) + ": '" + e.message + "'"
  {
    e.(isSystemError := true,
       message := "Worker was unable to load function " + Rendered(functionName) + ": '" + e.message + "'")
  }

  /**
   * `handleEvent` for a function load: locks worker indexing first (for good, whatever
   * follows), reads the worker id, acknowledges the request, rethrows a blocking start
   * error as it is, and only in legacy mode requires a function id and metadata and
   * loads the function; `legacyLoad` is how that load ends. `loadAttempted` says
   * whether the loader was called.
   */
  method HandleFunctionLoad(w: WorkerContext, request: FunctionLoadRequest, legacyLoad: Outcome<Exception>)
    returns (r: Result<FunctionLoadResponse, Exception>, ghost loadAttempted: bool)
    modifies w, w.app
    ensures w.app == old(w.app) && w.app.OthersUnchanged() && w.app.programmingModel == old(w.app.programmingModel)
    ensures w.app.workerIndexingLocked
    ensures w.defaultProgrammingModel == old(w.defaultProgrammingModel) && w.rawId == old(w.rawId)
    ensures w.rawHostVersion == old(w.rawHostVersion) && w.hookCalls == old(w.hookCalls)
    ensures old(w.Id()).Failure? || old(w.rawEventStream).None? ==>
      && r == Failure(NotInitializedError())
      && !loadAttempted && w.rawEventStream == old(w.rawEventStream)
    ensures old(w.Id()).Success? && old(w.rawEventStream).Some? ==>
      && w.rawEventStream == Some(old(w.rawEventStream.value).(written := old(w.Written()) + [ReceivedLoadRecord(old(w.Id()).value)]))
      && (old(w.app.blockingAppStartError).Some? ==>
            r == Failure(old(w.app.blockingAppStartError.value)) && !loadAttempted)
      && (old(w.app.blockingAppStartError).None? && old(w.app.isUsingWorkerIndexing) ==>
            r == Success(GetDefaultResponse(request)) && !loadAttempted)
      && (old(w.app.blockingAppStartError).None? && !old(w.app.isUsingWorkerIndexing) ==>
            && (request.functionId.None? ==> r == Failure(MissingPropertyError("functionId")) && !loadAttempted)
            && (request.functionId.Some? && request.metadata.None? ==>
                  r == Failure(MissingPropertyError("metadata")) && !loadAttempted)
            && (request.functionId.Some? && request.metadata.Some? ==>
                  && loadAttempted
                  && r == (if legacyLoad.Pass? then Success(GetDefaultResponse(request))
                           else Failure(LoadFailure(legacyLoad.error, request.metadata.value.name)))))
  {
    loadAttempted := false;
    w.app.workerIndexingLocked := true;
    var response := GetDefaultResponse(request);
    var id := w.Id();
    if id.Failure? {
      return Failure(id.error), loadAttempted;
    }
    var record := ReceivedLoadRecord(id.value);
    SystemRecordUnchanged(record, w.app.logHooks);
    var logged := w.Log(record, None);
    if logged.Fail? {
      return Failure(logged.error), loadAttempted;
    }
    if w.app.blockingAppStartError.Some? {
      return Failure(w.app.blockingAppStartError.value), loadAttempted;
    }
    if !w.app.isUsingWorkerIndexing {
      if request.functionId.None? {
        return Failure(MissingPropertyError("functionId")), loadAttempted;
      }
      if request.metadata.None? {
        return Failure(MissingPropertyError("metadata")), loadAttempted;
      }
      loadAttempted := true;
      if legacyLoad.Fail? {
        return Failure(LoadFailure(legacyLoad.error, request.metadata.value.name)), loadAttempted;
      }
    }
    r := Success(response);
  }
}
