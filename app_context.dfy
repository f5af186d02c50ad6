/**
 * The application context: all state of one loaded application, replaced wholesale on
 * every environment reload. Only the fields the core reads or writes are modelled.
 */
module App {
  import opened Wrappers
  import opened Rpc
  import opened Hooks

  class AppContext {
    var functionAppDirectory: Option<string>
    var programmingModel: Option<ProgrammingModel>
    var workerIndexingLocked: bool
    var blockingAppStartError: Option<Exception>
    var isUsingWorkerIndexing: bool
    var preInvocationHooks: seq<HookCallback>
    var postInvocationHooks: seq<HookCallback>
    var appStartHooks: seq<HookCallback>
    var appTerminateHooks: seq<HookCallback>
    var logHooks: seq<HookCallback>
    var appHookData: HookData
    var appLevelOnlyHookData: HookData
    var packageJson: PackageJson

    /** Everything a reload clears: no directory, no error, no lock, no hooks, no hook data. */
    predicate Cleared()
      reads this
    {
      && functionAppDirectory.None?
      && !workerIndexingLocked
      && blockingAppStartError.None?
      && !isUsingWorkerIndexing
      && preInvocationHooks == [] && postInvocationHooks == [] && appStartHooks == []
      && appTerminateHooks == [] && logHooks == []
      && appHookData == map[] && appLevelOnlyHookData == map[]
      && packageJson == map[]
    }

    /** Every field but `programmingModel` and `workerIndexingLocked` is as it was. */
    twostate predicate OthersUnchanged()
      reads this
    {
      && functionAppDirectory == old(functionAppDirectory)
      && blockingAppStartError == old(blockingAppStartError)
      && isUsingWorkerIndexing == old(isUsingWorkerIndexing)
      && preInvocationHooks == old(preInvocationHooks) && postInvocationHooks == old(postInvocationHooks)
      && appStartHooks == old(appStartHooks) && appTerminateHooks == old(appTerminateHooks)
      && logHooks == old(logHooks)
      && appHookData == old(appHookData) && appLevelOnlyHookData == old(appLevelOnlyHookData)
      && packageJson == old(packageJson)
    }

    /** A fresh context starts cleared and without a programming model. */
    constructor()
      ensures Cleared() && programmingModel.None?
    {
      functionAppDirectory := None;
      programmingModel := None;
      workerIndexingLocked := false;
      blockingAppStartError := None;
      isUsingWorkerIndexing := false;
      preInvocationHooks, postInvocationHooks, appStartHooks := [], [], [];
      appTerminateHooks, logHooks := [], [];
      appHookData, appLevelOnlyHookData := map[], map[];
      packageJson := map[];
    }
  }
}
