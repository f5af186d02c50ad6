/** Looking up the registered callbacks of a hook point by name. */
module HookRegistry {
  import opened Wrappers
  import opened Rpc
  import opened Hooks
  import opened App

  /** The five hook points. */
  const HookNames: set<string> := {"preInvocation", "postInvocation", "appStart", "appTerminate", "log"}

  /**
   * The registry of the named hook point on the current application context, itself and
   * not a copy; any other name is a range error naming it. Reading it changes nothing.
   */
  function GetHooks(app: AppContext, hookName: string): (r: Result<seq<HookCallback>, Exception>)
    reads app
    ensures r.Success? <==> hookName in HookNames
    ensures r.Failure? ==> r.error == UnrecognizedHookError(hookName)
    ensures hookName == "preInvocation" ==> r == Success(app.preInvocationHooks)
    ensures hookName == "postInvocation" ==> r == Success(app.postInvocationHooks)
    ensures hookName == "appStart" ==> r == Success(app.appStartHooks)
    ensures hookName == "appTerminate" ==> r == Success(app.appTerminateHooks)
    ensures hookName == "log" ==> r == Success(app.logHooks)
  {
    match hookName
    case "preInvocation" => Success(app.preInvocationHooks)
    case "postInvocation" => Success(app.postInvocationHooks)
    case "appStart" => Success(app.appStartHooks)
    case "appTerminate" => Success(app.appTerminateHooks)
    case "log" => Success(app.logHooks)
    case _ => Failure(UnrecognizedHookError(hookName))
  }
}
