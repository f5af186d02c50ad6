/** Running the callbacks registered for a hook point, between two debug records. */
module HookExecution {
  import opened Wrappers
  import opened Text
  import opened Rpc
  import opened Hooks
  import opened HookRegistry
  import opened Worker

  /** The System Debug record announcing that `count` callbacks are about to run. */
  function ExecutingRecord(count: nat, hookName: string, invocationId: Option<string>, category: Option<string>): RpcLog {
    RpcLog(Some("Executing " + NatToString(count) + " \"" + hookName + "\" hooks"), Some(Debug), Some(System),
           invocationId, category)
  }

  /** The System Debug record written once every callback has returned. */
  function ExecutedRecord(hookName: string, invocationId: Option<string>, category: Option<string>): RpcLog {
    RpcLog(Some("Executed \"" + hookName + "\" hooks"), Some(Debug), Some(System), invocationId, category)
  }

  /**
   * The records a run of a non-empty registry writes: the announcement, and the closing
   * record only when no callback threw.
   */
  function ExecutionRecords(callbacks: seq<HookCallback>, guarded: set<Property>, hookName: string,
                            invocationId: Option<string>, category: Option<string>): (r: seq<RpcLog>)
    ensures 1 <= |r| <= 2
    ensures r[0] == ExecutingRecord(|callbacks|, hookName, invocationId, category)
    ensures |r| == 2 <==> RunCallbacks(callbacks, guarded).outcome.Pass?
    ensures |r| == 2 ==> r[1] == ExecutedRecord(hookName, invocationId, category)
  {
    [ExecutingRecord(|callbacks|, hookName, invocationId, category)]
    + (if RunCallbacks(callbacks, guarded).outcome.Pass? then [ExecutedRecord(hookName, invocationId, category)] else [])
  }

  /** The announcement names the number of callbacks, which can be read back from it. */
  lemma ExecutingRecordCount(count: nat, hookName: string, invocationId: Option<string>, category: Option<string>)
    ensures var m := ExecutingRecord(count, hookName, invocationId, category).message.value;
      && m[..10] == "Executing "
      && m[10..10 + |NatToString(count)|] == NatToString(count)
      && Value(m[10..10 + |NatToString(count)|]) == count
  {
    NatToStringValue(count);
  }

  /**
   * Awaiting each callback in registration order on one context until one throws: the
   * callbacks called are recorded in order, and the run's outcome is returned.
   */
  method CallCallbacks(w: WorkerContext, callbacks: seq<HookCallback>, guarded: set<Property>)
    returns (o: Outcome<Exception>)
    modifies w
    ensures w.app == old(w.app) && w.defaultProgrammingModel == old(w.defaultProgrammingModel)
    ensures w.rawId == old(w.rawId) && w.rawHostVersion == old(w.rawHostVersion)
    ensures w.rawEventStream == old(w.rawEventStream)
    ensures var run := RunCallbacks(callbacks, guarded);
      o == run.outcome && w.hookCalls == old(w.hookCalls) + callbacks[..run.ran]
  {
    var i := 0;
    while i < |callbacks|
      invariant 0 <= i <= |callbacks|
      invariant forall j :: 0 <= j < i ==> CallbackOutcome(callbacks[j].actions, guarded).Pass?
      invariant w.app == old(w.app) && w.defaultProgrammingModel == old(w.defaultProgrammingModel)
      invariant w.rawId == old(w.rawId) && w.rawHostVersion == old(w.rawHostVersion)
      invariant w.rawEventStream == old(w.rawEventStream)
      invariant w.hookCalls == old(w.hookCalls) + callbacks[..i]
    {
      var outcome := CallbackOutcome(callbacks[i].actions, guarded);
      w.hookCalls := w.hookCalls + [callbacks[i]];
      assert callbacks[..i + 1] == callbacks[..i] + [callbacks[i]];
      if outcome.Fail? {
        FirstFailurePropagates(callbacks, guarded, i);
        return outcome;
      }
      i := i + 1;
    }
    assert callbacks[..i] == callbacks;
    o := Pass;
  }

  /**
   * `executeHooks`: looks the registry up (an unknown name throws before anything
   * happens); an empty registry does nothing; otherwise announces the run, calls the
   * callbacks in registration order on one context (refusing the replacement of the
   * properties in `guarded`) until one throws, and closes the run only if none did.
   * A throwing callback's error propagates unchanged.
   */
  method ExecuteHooks(w: WorkerContext, hookName: string, guarded: set<Property>,
                      invocationId: Option<string>, msgCategory: Option<string>)
    returns (o: Outcome<Exception>)
    modifies w
    ensures w.app == old(w.app) && w.defaultProgrammingModel == old(w.defaultProgrammingModel)
    ensures w.rawId == old(w.rawId) && w.rawHostVersion == old(w.rawHostVersion)
    ensures GetHooks(w.app, hookName).Failure? ==>
      && o == Fail(UnrecognizedHookError(hookName))
      && w.rawEventStream == old(w.rawEventStream) && w.hookCalls == old(w.hookCalls)
    ensures GetHooks(w.app, hookName) == Success([]) ==>
      o == Pass && w.rawEventStream == old(w.rawEventStream) && w.hookCalls == old(w.hookCalls)
    ensures GetHooks(w.app, hookName).Success? && GetHooks(w.app, hookName).value != [] && old(w.rawEventStream).None? ==>
      && o == Fail(NotInitializedError())
      && w.rawEventStream.None? && w.hookCalls == old(w.hookCalls)
    ensures GetHooks(w.app, hookName).Success? && GetHooks(w.app, hookName).value != [] && old(w.rawEventStream).Some? ==>
      var callbacks := GetHooks(w.app, hookName).value;
      var run := RunCallbacks(callbacks, guarded);
      && o == run.outcome
      && w.hookCalls == old(w.hookCalls) + callbacks[..run.ran]
      && w.rawEventStream == Some(old(w.rawEventStream.value).(written :=
           old(w.Written()) + ExecutionRecords(callbacks, guarded, hookName, invocationId, msgCategory)))
  {
    var found := GetHooks(w.app, hookName);
    if found.Failure? {
      return Fail(found.error);
    }
    var callbacks := found.value;
    if |callbacks| == 0 {
      return Pass;
    }
    var executing := ExecutingRecord(|callbacks|, hookName, invocationId, msgCategory);
    SystemRecordUnchanged(executing, w.app.logHooks);
    o := w.Log(executing, None);
    if o.Fail? {
      return;
    }
    o := CallCallbacks(w, callbacks, guarded);
    if o.Fail? {
      assert ExecutionRecords(callbacks, guarded, hookName, invocationId, msgCategory) == [executing];
      return;
    }
    var executed := ExecutedRecord(hookName, invocationId, msgCategory);
    assert ExecutionRecords(callbacks, guarded, hookName, invocationId, msgCategory) == [executing, executed];
    assert old(w.Written()) + [executing] + [executed] == old(w.Written()) + [executing, executed];
    SystemRecordUnchanged(executed, w.app.logHooks);
    o := w.Log(executed, None);
  }
}
