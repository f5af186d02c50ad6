/**
 * The process-wide worker context and the context handed to log hooks.
 *
 * The two live in one module because each refers to the other: `log` builds a
 * LogHookContext, and a LogHookContext reads the worker's current application.
 */
module Worker {
  import opened Wrappers
  import opened Rpc
  import opened Hooks
  import opened App

  /** The outbound event stream: the records written to it so far and whether it was ended. */
  datatype EventStream = EventStream(written: seq<RpcLog>, ended: bool)

  class WorkerContext {
    var app: AppContext
    var defaultProgrammingModel: Option<ProgrammingModel>
    /** `_hostVersion`, set by the init handshake. */
    var rawHostVersion: Option<string>
    /** The private `#id`. */
    var rawId: Option<string>
    /** The private `#eventStream`. */
    var rawEventStream: Option<EventStream>
    /** Every callback the hook pipeline has called, in order (log hooks run by `Log` excluded). */
    ghost var hookCalls: seq<HookCallback>

    /** The single worker: a fresh application, nothing initialised yet. */
    constructor()
      ensures fresh(app) && app.Cleared() && app.programmingModel.None?
      ensures defaultProgrammingModel.None? && rawHostVersion.None? && rawId.None? && rawEventStream.None?
      ensures hookCalls == []
    {
      app := new AppContext();
      defaultProgrammingModel := None;
      rawHostVersion, rawId, rawEventStream := None, None, None;
      hookCalls := [];
    }

    /** Nothing but the event stream changed. */
    twostate predicate OnlyStreamChanged()
      reads this
    {
      && app == old(app)
      && defaultProgrammingModel == old(defaultProgrammingModel)
      && rawHostVersion == old(rawHostVersion)
      && rawId == old(rawId)
      && hookCalls == old(hookCalls)
    }

    /** The records written to the current stream (none while there is no stream). */
    function Written(): seq<RpcLog>
      reads this
    {
      if rawEventStream.Some? then rawEventStream.value.written else []
    }

    /** The `id` getter: an unset or empty id is an initialisation error. */
    function Id(): (r: Result<string, Exception>)
      reads this
      ensures r.Success? <==> rawId.Some? && rawId.value != ""
      ensures r.Success? ==> r.value == rawId.value
      ensures r.Failure? ==> r.error == NotInitializedError()
    {
      if rawId.None? || rawId.value == "" then Failure(NotInitializedError()) else Success(rawId.value)
    }

    /** The `id` setter; a non-empty id reads back unchanged from then on. */
    method SetId(value: string)
      modifies this
      ensures rawId == Some(value)
      ensures value != "" ==> Id() == Success(value)
      ensures value == "" ==> Id() == Failure(NotInitializedError())
      ensures app == old(app) && defaultProgrammingModel == old(defaultProgrammingModel)
      ensures rawHostVersion == old(rawHostVersion) && rawEventStream == old(rawEventStream)
      ensures hookCalls == old(hookCalls)
    {
      rawId := Some(value);
    }

    /** The `eventStream` getter: no stream yet is an initialisation error. */
    function EventStream(): (r: Result<EventStream, Exception>)
      reads this
      ensures r.Success? <==> rawEventStream.Some?
      ensures r.Success? ==> r.value == rawEventStream.value
      ensures r.Failure? ==> r.error == NotInitializedError()
    {
      if rawEventStream.None? then Failure(NotInitializedError()) else Success(rawEventStream.value)
    }

    /** The `eventStream` setter; the stream reads back unchanged from then on. */
    method SetEventStream(value: EventStream)
      modifies this
      ensures rawEventStream == Some(value) && EventStream() == Success(value)
      ensures OnlyStreamChanged()
    {
      rawEventStream := Some(value);
    }

    /** The `hostVersion` getter: unset or empty is a premature access. */
    function HostVersion(): (r: Result<string, Exception>)
      reads this
      ensures r.Success? <==> rawHostVersion.Some? && rawHostVersion.value != ""
      ensures r.Success? ==> r.value == rawHostVersion.value
      ensures r.Failure? ==> r.error == HostVersionNotInitializedError()
    {
      if rawHostVersion.None? || rawHostVersion.value == "" then Failure(HostVersionNotInitializedError())
      else Success(rawHostVersion.value)
    }

    /** The init handshake's assignment to `_hostVersion`. */
    method SetHostVersion(value: string)
      modifies this
      ensures rawHostVersion == Some(value)
      ensures value != "" ==> HostVersion() == Success(value)
      ensures value == "" ==> HostVersion() == Failure(HostVersionNotInitializedError())
      ensures app == old(app) && defaultProgrammingModel == old(defaultProgrammingModel)
      ensures rawId == old(rawId) && rawEventStream == old(rawEventStream) && hookCalls == old(hookCalls)
    {
      rawHostVersion := Some(value);
    }

    /**
     * Discards the application context for a fresh one that starts with the default
     * programming model; the default itself and everything else stay as they were.
     */
    method ResetApp()
      modifies this
      ensures fresh(app) && app.Cleared() && app.programmingModel == defaultProgrammingModel
      ensures defaultProgrammingModel == old(defaultProgrammingModel)
      ensures rawHostVersion == old(rawHostVersion) && rawId == old(rawId)
      ensures rawEventStream == old(rawEventStream) && hookCalls == old(hookCalls)
    {
      app := new AppContext();
      app.programmingModel := defaultProgrammingModel;
    }

    /**
     * Runs the log hooks on one context built from the record, lets them rewrite a User
     * record's message and level, swallows any failure while doing so, and then writes the
     * record to the stream exactly once; the write itself fails when there is no stream.
     */
    method Log(log: RpcLog, invocationLogContext: Option<InvocationLogContext>) returns (o: Outcome<Exception>)
      modifies this
      ensures OnlyStreamChanged()
      ensures old(rawEventStream).None? ==> o == Fail(NotInitializedError()) && rawEventStream.None?
      ensures old(rawEventStream).Some? ==>
        && o == Pass
        && rawEventStream == Some(old(rawEventStream.value).(written := old(Written()) + [LoggedRecord(log, app.logHooks)]))
    {
      var record := log;
      var built := LogHookContext.New(log, invocationLogContext, this);
      if built.Success? {
        var context := built.value;
        var hooks := app.logHooks;
        ghost var start := context.View();
        var i := 0;
        var failed := false;
        while i < |hooks| && !failed
          invariant 0 <= i <= |hooks|
          invariant !failed ==> RunLogHooks(hooks[i..], context.View()) == RunLogHooks(hooks, start)
          invariant failed ==> RunLogHooks(hooks, start).outcome.Fail?
          modifies context
        {
          ghost var before := context.View();
          var outcome := context.Apply(hooks[i]);
          assert hooks[i..][1..] == hooks[i + 1..];
          failed := outcome.Fail?;
          i := i + 1;
        }
        if !failed && log.logCategory == Some(User) {
          record := log.(message := Some(context.message), level := Some(context.level));
        }
      }
      if rawEventStream.None? {
        return Fail(NotInitializedError());
      }
      rawEventStream := Some(rawEventStream.value.(written := rawEventStream.value.written + [record]));
      o := Pass;
    }

    /** `eventStream.end()`: fails like the getter when there is no stream. */
    method EndEventStream() returns (o: Outcome<Exception>)
      modifies this
      ensures OnlyStreamChanged()
      ensures old(rawEventStream).None? ==> o == Fail(NotInitializedError()) && rawEventStream.None?
      ensures old(rawEventStream).Some? ==> o == Pass && rawEventStream == Some(old(rawEventStream.value).(ended := true))
    {
      if rawEventStream.None? {
        return Fail(NotInitializedError());
      }
      rawEventStream := Some(rawEventStream.value.(ended := true));
      o := Pass;
    }
  }

  /**
   * The context a log hook receives: `level` and `message` are writable, the other four
   * properties can be read but refuse to be replaced.
   */
  class LogHookContext {
    var level: Level
    var message: string
    const category: LogCategory
    const hookData: HookData
    const invocationContext: Option<InvocationContext>
    const worker: WorkerContext

    constructor(level: Level, message: string, category: LogCategory,
                invocationLogContext: Option<InvocationLogContext>, worker: WorkerContext)
      ensures this.level == level && this.message == message && this.category == category
      ensures hookData == if invocationLogContext.Some? then invocationLogContext.value.hookData else map[]
      ensures invocationContext == if invocationLogContext.Some? then Some(invocationLogContext.value.invocationContext) else None
      ensures this.worker == worker
    {
      this.level := level;
      this.message := message;
      this.category := category;
      this.hookData := if invocationLogContext.Some? then invocationLogContext.value.hookData else map[];
      this.invocationContext := if invocationLogContext.Some? then Some(invocationLogContext.value.invocationContext) else None;
      this.worker := worker;
    }

    /**
     * Builds the context from a record, failing on the first of `level`, `message` and
     * `logCategory` that is missing.
     */
    static method New(log: RpcLog, invocationLogContext: Option<InvocationLogContext>, worker: WorkerContext)
      returns (r: Result<LogHookContext, Exception>)
      ensures log.level.None? ==> r == Failure(MissingPropertyError("level"))
      ensures log.level.Some? && log.message.None? ==> r == Failure(MissingPropertyError("message"))
      ensures log.level.Some? && log.message.Some? && log.logCategory.None? ==>
        r == Failure(MissingPropertyError("logCategory"))
      ensures log.level.Some? && log.message.Some? && log.logCategory.Some? ==>
        && r.Success? && fresh(r.value)
        && r.value.View() == LogView(log.message.value, log.level.value)
        && r.value.category == log.logCategory.value
        && r.value.hookData == (if invocationLogContext.Some? then invocationLogContext.value.hookData else map[])
        && r.value.worker == worker
    {
      if log.level.None? {
        return Failure(MissingPropertyError("level"));
      }
      if log.message.None? {
        return Failure(MissingPropertyError("message"));
      }
      if log.logCategory.None? {
        return Failure(MissingPropertyError("logCategory"));
      }
      var context := new LogHookContext(log.level.value, log.message.value, log.logCategory.value,
                                        invocationLogContext, worker);
      r := Success(context);
    }

    /** The two writable properties. */
    function View(): LogView
      reads this
    {
      LogView(message, level)
    }

    /** The `appHookData` getter: the current application's store at the moment of reading. */
    function AppHookData(): HookData
      reads worker, worker.app
    {
      worker.app.appHookData
    }

    method SetHookData(value: HookData) returns (o: Outcome<Exception>)
      ensures o == Fail(ReadOnlyError(HookDataProperty))
    {
      o := Fail(ReadOnlyError(HookDataProperty));
    }

    method SetCategory(value: LogCategory) returns (o: Outcome<Exception>)
      ensures o == Fail(ReadOnlyError(CategoryProperty))
    {
      o := Fail(ReadOnlyError(CategoryProperty));
    }

    method SetAppHookData(value: HookData) returns (o: Outcome<Exception>)
      ensures o == Fail(ReadOnlyError(AppHookDataProperty))
    {
      o := Fail(ReadOnlyError(AppHookDataProperty));
    }

    method SetInvocationContext(value: InvocationContext) returns (o: Outcome<Exception>)
      ensures o == Fail(ReadOnlyError(InvocationContextProperty))
    {
      o := Fail(ReadOnlyError(InvocationContextProperty));
    }

    /** Calls a log hook on this context: its actions in order, up to the first that throws. */
    method Apply(callback: HookCallback) returns (o: Outcome<Exception>)
      modifies this
      ensures LogRun(View(), o) == ApplyLogActions(callback.actions, old(View()))
    {
      var actions := callback.actions;
      var i := 0;
      while i < |actions|
        invariant 0 <= i <= |actions|
        invariant ApplyLogActions(actions[i..], View()) == ApplyLogActions(actions, old(View()))
      {
        assert actions[i..][1..] == actions[i + 1..];
        match actions[i] {
        case SetMessage(m) =>
          message := m;
        case SetLevel(l) =>
          level := l;
        case Replace(p) =>
          match p {
            case HookDataProperty => o := SetHookData(map[]);
            case CategoryProperty => o := SetCategory(System);
            case AppHookDataProperty => o := SetAppHookData(map[]);
            case InvocationContextProperty => o := SetInvocationContext(InvocationContext(""));
          }
          return;
        case Throw(e) =>
          return Fail(e);
        }
        i := i + 1;
      }
      o := Pass;
    }
  }
}
