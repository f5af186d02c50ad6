/**
 * Registered hook callbacks and what running them does.
 *
 * A callback is user code; the model describes it by the script of what it does to the
 * context it receives: set the context's message or level, try to replace one of the
 * context's properties wholesale, or throw. A context is characterised by the set of
 * properties whose replacement it refuses with a ReadOnlyError.
 */
module Hooks {
  import opened Wrappers
  import opened Rpc

  datatype HookAction =
    | SetMessage(message: string)
    | SetLevel(level: Level)
    | Replace(property: Property)
    | Throw(error: Exception)

  /** A registered callback: an identity and the script of what it does when called. */
  datatype HookCallback = HookCallback(id: nat, actions: seq<HookAction>)

  /** The properties a LogHookContext refuses to have replaced. */
  const LogContextGuarded: set<Property> :=
    {HookDataProperty, CategoryProperty, AppHookDataProperty, InvocationContextProperty}

  /** Whether a callback's actions, run on a context refusing `guarded`, return or throw. */
  function CallbackOutcome(actions: seq<HookAction>, guarded: set<Property>): Outcome<Exception> {
    if actions == [] then Pass
    else match actions[0]
      case Throw(e) => Fail(e)
      case Replace(p) =>
        if p in guarded then Fail(ReadOnlyError(p)) else CallbackOutcome(actions[1..], guarded)
      case _ => CallbackOutcome(actions[1..], guarded)
  }

  /** A run of a callback sequence: how many callbacks were called, and how the run ended. */
  datatype PipelineRun = PipelineRun(ran: nat, outcome: Outcome<Exception>)

  /**
   * Awaiting each callback in registration order until one throws: the callbacks before
   * the failing one all returned, the failing one is the last called, and a run that
   * passes has called every callback.
   */
  function RunCallbacks(callbacks: seq<HookCallback>, guarded: set<Property>): (r: PipelineRun)
    ensures r.ran <= |callbacks|
    ensures forall i :: 0 <= i < r.ran - 1 ==> CallbackOutcome(callbacks[i].actions, guarded).Pass?
    ensures r.outcome.Pass? <==> r.ran == |callbacks| && forall i :: 0 <= i < |callbacks| ==> CallbackOutcome(callbacks[i].actions, guarded).Pass?
    ensures r.outcome.Fail? ==> r.ran >= 1 && CallbackOutcome(callbacks[r.ran - 1].actions, guarded) == r.outcome
  {
    if callbacks == [] then PipelineRun(0, Pass)
    else
      var first := CallbackOutcome(callbacks[0].actions, guarded);
      if first.Fail? then PipelineRun(1, first)
      else
        var rest := RunCallbacks(callbacks[1..], guarded);
        assert forall i :: 1 <= i < |callbacks| ==> callbacks[i] == callbacks[1..][i - 1];
        PipelineRun(rest.ran + 1, rest.outcome)
  }

  /**
   * When every callback before `k` returns and callback `k` throws, the run calls exactly
   * `k + 1` callbacks and rethrows that error: later callbacks never run and no failure
   * is swallowed.
   */
  lemma {:induction false} FirstFailurePropagates(callbacks: seq<HookCallback>, guarded: set<Property>, k: nat)
    requires k < |callbacks|
    requires forall i :: 0 <= i < k ==> CallbackOutcome(callbacks[i].actions, guarded).Pass?
    requires CallbackOutcome(callbacks[k].actions, guarded).Fail?
    ensures RunCallbacks(callbacks, guarded) == PipelineRun(k + 1, CallbackOutcome(callbacks[k].actions, guarded))
  {
    if k > 0 {
      assert forall i :: 0 <= i < k - 1 ==> callbacks[1..][i] == callbacks[i + 1];
      FirstFailurePropagates(callbacks[1..], guarded, k - 1);
    }
  }

  /** The two writable fields of a LogHookContext. */
  datatype LogView = LogView(message: string, level: Level)

  /** The log context's writable fields after a run, and whether the run threw. */
  datatype LogRun = LogRun(view: LogView, outcome: Outcome<Exception>)

  /** A log callback's actions applied to a LogHookContext. */
  function ApplyLogActions(actions: seq<HookAction>, view: LogView): LogRun {
    if actions == [] then LogRun(view, Pass)
    else match actions[0]
      case SetMessage(m) => ApplyLogActions(actions[1..], view.(message := m))
      case SetLevel(l) => ApplyLogActions(actions[1..], view.(level := l))
      case Replace(p) =>
        if p in LogContextGuarded then LogRun(view, Fail(ReadOnlyError(p)))
        else ApplyLogActions(actions[1..], view)
      case Throw(e) => LogRun(view, Fail(e))
  }

  /** All log hooks in registration order on one shared context, stopping at the first that throws. */
  function RunLogHooks(hooks: seq<HookCallback>, view: LogView): LogRun {
    if hooks == [] then LogRun(view, Pass)
    else
      var first := ApplyLogActions(hooks[0].actions, view);
      if first.outcome.Fail? then first else RunLogHooks(hooks[1..], first.view)
  }

  /**
   * The record `log` finally writes: the User record's message and level as the hooks
   * left them, unless building the context or a hook threw; every other record as given.
   */
  function LoggedRecord(log: RpcLog, hooks: seq<HookCallback>): RpcLog {
    if log.level.None? || log.message.None? || log.logCategory.None? then log
    else
      var run := RunLogHooks(hooks, LogView(log.message.value, log.level.value));
      if run.outcome.Fail? then log
      else if log.logCategory == Some(User) then log.(message := Some(run.view.message), level := Some(run.view.level))
      else log
  }

  /** On a log context, a callback throws exactly when the generic pipeline says it does. */
  lemma {:induction false} LogActionsOutcome(actions: seq<HookAction>, view: LogView)
    ensures ApplyLogActions(actions, view).outcome == CallbackOutcome(actions, LogContextGuarded)
  {
    if actions != [] {
      match actions[0]
      case SetMessage(m) => LogActionsOutcome(actions[1..], view.(message := m));
      case SetLevel(l) => LogActionsOutcome(actions[1..], view.(level := l));
      case Replace(p) => LogActionsOutcome(actions[1..], view);
      case Throw(e) =>
    }
  }

  /**
   * The log hooks fail exactly when the generic pipeline over the same callbacks
   * (on a context with the log context's guards) fails, and with the same error.
   */
  lemma {:induction false} LogHooksFailLikePipeline(hooks: seq<HookCallback>, view: LogView)
    ensures RunLogHooks(hooks, view).outcome == RunCallbacks(hooks, LogContextGuarded).outcome
  {
    if hooks != [] {
      var first := ApplyLogActions(hooks[0].actions, view);
      LogActionsOutcome(hooks[0].actions, view);
      if first.outcome.Pass? {
        LogHooksFailLikePipeline(hooks[1..], first.view);
      }
    }
  }

  /** Once hook k throws, the hooks registered after it make no difference. */
  lemma {:induction false} LaterLogHooksSkipped(hooks: seq<HookCallback>, view: LogView, k: nat)
    requires k < |hooks|
    requires RunLogHooks(hooks[..k], view).outcome.Pass?
    requires ApplyLogActions(hooks[k].actions, RunLogHooks(hooks[..k], view).view).outcome.Fail?
    ensures RunLogHooks(hooks, view) == RunLogHooks(hooks[..k + 1], view)
    ensures RunLogHooks(hooks, view).outcome.Fail?
  {
    if k == 0 {
      assert hooks[..1] == [hooks[0]];
    } else {
      var first := ApplyLogActions(hooks[0].actions, view);
      assert hooks[..k][0] == hooks[0] && hooks[..k][1..] == hooks[1..][..k - 1];
      assert hooks[..k + 1][1..] == hooks[1..][..k];
      LaterLogHooksSkipped(hooks[1..], first.view, k - 1);
    }
  }

  /** A System record is written exactly as it was built, whatever the hooks do. */
  lemma SystemRecordUnchanged(log: RpcLog, hooks: seq<HookCallback>)
    requires log.logCategory != Some(User)
    ensures LoggedRecord(log, hooks) == log
  {
  }

  /** The hooks never change a record's category, invocation id or hook category. */
  lemma LoggedRecordKeepsIdentity(log: RpcLog, hooks: seq<HookCallback>)
    ensures LoggedRecord(log, hooks).logCategory == log.logCategory
    ensures LoggedRecord(log, hooks).invocationId == log.invocationId
    ensures LoggedRecord(log, hooks).category == log.category
  {
  }

  /**
   * A User record whose hooks all return carries the message and level the last hook
   * left on the context; if any hook throws, the record goes out as it was built.
   */
  lemma UserRecordRewritten(log: RpcLog, hooks: seq<HookCallback>)
    requires log.logCategory == Some(User) && log.level.Some? && log.message.Some?
    ensures var run := RunLogHooks(hooks, LogView(log.message.value, log.level.value));
      && (run.outcome.Pass? ==> LoggedRecord(log, hooks) == log.(message := Some(run.view.message), level := Some(run.view.level)))
      && (run.outcome.Fail? ==> LoggedRecord(log, hooks) == log)
  {
  }

  /**
   * A hook that rewrites the message to "X" and the level to Error changes a User
   * record accordingly and leaves a System record as it was.
   */
  lemma RewritingHookExample(message: string, level: Level)
    ensures var hook := HookCallback(0, [SetMessage("X"), SetLevel(Error)]);
      && LoggedRecord(RpcLog(Some(message), Some(level), Some(User), None, None), [hook])
         == RpcLog(Some("X"), Some(Error), Some(User), None, None)
      && LoggedRecord(SystemLog(message, level), [hook]) == SystemLog(message, level)
  {
    var hook := HookCallback(0, [SetMessage("X"), SetLevel(Error)]);
    var view := LogView(message, level);
    assert hook.actions[1..] == [SetLevel(Error)] && hook.actions[1..][1..] == [];
    assert ApplyLogActions(hook.actions[1..][1..], LogView("X", Error)) == LogRun(LogView("X", Error), Pass);
    assert ApplyLogActions(hook.actions[1..], view.(message := "X")) == LogRun(LogView("X", Error), Pass);
    assert ApplyLogActions(hook.actions, view) == LogRun(LogView("X", Error), Pass);
    assert [hook][1..] == [];
    assert RunLogHooks([hook], view) == LogRun(LogView("X", Error), Pass);
  }
}
