/** Shutting the worker down on the host's request. */
module Termination {
  import opened Wrappers
  import opened Rpc
  import opened Hooks
  import opened HookRegistry
  import opened Worker
  import opened HookExecution
  import opened NodeProcess

  /** The properties the terminate context refuses to have replaced. */
  const AppTerminateGuarded: set<Property> := {HookDataProperty, AppHookDataProperty}

  /**
   * The context handed to appTerminate hooks: `hookData` reads the application-level-only
   * store and `appHookData` the shared store of the current application; both refuse
   * to be replaced.
   */
  class AppTerminateContext {
    const worker: WorkerContext

    constructor(worker: WorkerContext)
      ensures this.worker == worker
    {
      this.worker := worker;
    }

    function HookData(): HookData
      reads worker, worker.app
    {
      worker.app.appLevelOnlyHookData
    }

    function AppHookData(): HookData
      reads worker, worker.app
    {
      worker.app.appHookData
    }

    method SetHookData(value: HookData) returns (o: Outcome<Exception>)
      ensures o == Fail(ReadOnlyError(HookDataProperty))
    {
      o := Fail(ReadOnlyError(HookDataProperty));
    }

    method SetAppHookData(value: HookData) returns (o: Outcome<Exception>)
      ensures o == Fail(ReadOnlyError(AppHookDataProperty))
    {
      o := Fail(ReadOnlyError(AppHookDataProperty));
    }

    /**
     * Calls a hook on this context. Writing any other property just adds it to the
     * object, with no effect on the worker; so the callback returns or throws exactly as
     * the pipeline's description of a context guarding `hookData` and `appHookData` says.
     */
    method Call(callback: HookCallback) returns (o: Outcome<Exception>)
      ensures o == CallbackOutcome(callback.actions, AppTerminateGuarded)
    {
      var actions := callback.actions;
      var i := 0;
      while i < |actions|
        invariant 0 <= i <= |actions|
        invariant CallbackOutcome(actions[i..], AppTerminateGuarded) == CallbackOutcome(actions, AppTerminateGuarded)
      {
        assert actions[i..][1..] == actions[i + 1..];
        match actions[i] {
          case Replace(HookDataProperty) =>
            o := SetHookData(map[]);
            return;
          case Replace(AppHookDataProperty) =>
            o := SetAppHookData(map[]);
            return;
          case Throw(e) =>
            return Fail(e);
          case _ =>
        }
        i := i + 1;
      }
      o := Pass;
    }
  }

  const ReceivedTerminateRecord: RpcLog :=
    SystemLog("Received workerTerminate message; gracefully shutting down worker", Debug)

  /** What the terminate hooks write: nothing when there are none. */
  function TerminateHookRecords(callbacks: seq<HookCallback>): seq<RpcLog> {
    if callbacks == [] then [] else ExecutionRecords(callbacks, AppTerminateGuarded, "appTerminate", None, None)
  }

  /**
   * `terminateWorker`: announces the shutdown, runs the appTerminate hooks to
   * completion, then ends the stream and exits with code 0. A throwing hook's error
   * propagates and neither the stream is ended nor the process exited.
   */
  method TerminateWorker(w: WorkerContext, p: Process) returns (o: Outcome<Exception>)
    modifies w, p
    ensures w.app == old(w.app) && w.defaultProgrammingModel == old(w.defaultProgrammingModel)
    ensures w.rawId == old(w.rawId) && w.rawHostVersion == old(w.rawHostVersion)
    ensures p.env == old(p.env) && p.cwd == old(p.cwd)
    ensures old(w.rawEventStream).None? ==>
      && o == Fail(NotInitializedError())
      && w.rawEventStream.None? && w.hookCalls == old(w.hookCalls) && p.exitCode == old(p.exitCode)
    ensures old(w.rawEventStream).Some? ==>
      var callbacks := old(w.app.appTerminateHooks);
      var run := RunCallbacks(callbacks, AppTerminateGuarded);
      && o == run.outcome
      && w.hookCalls == old(w.hookCalls) + callbacks[..run.ran]
      && w.rawEventStream.Some?
      && w.Written() == old(w.Written()) + [ReceivedTerminateRecord] + TerminateHookRecords(callbacks)
      && w.rawEventStream.value.ended == (old(w.rawEventStream.value.ended) || run.outcome.Pass?)
      && p.exitCode == (if run.outcome.Pass? then Some(0) else old(p.exitCode))
  {
    SystemRecordUnchanged(ReceivedTerminateRecord, w.app.logHooks);
    o := w.Log(ReceivedTerminateRecord, None);
    if o.Fail? {
      return;
    }
    o := ExecuteHooks(w, "appTerminate", AppTerminateGuarded, None, None);
    if o.Fail? {
      return;
    }
    o := w.EndEventStream();
    p.Exit(0);
  }
}
