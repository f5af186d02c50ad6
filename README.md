# Azure Functions Node.js worker: state lifecycle and control messages

This project models the core of the Azure Functions Node.js language worker in Dafny. It covers the state the worker keeps and the control messages that change it.

- **The worker context.** It holds the application context, the default programming model, the host version, the worker id and the outbound event stream. Each of the latter three has a guarded getter.
- **`log`.** It runs the registered log hooks on a `LogHookContext`, lets them rewrite User records only, swallows their failures and writes the record once.
- **The hook pipeline.** `getHooks` and `executeHooks` look up a registry and call its callbacks in order until one throws, between two Debug records.
- **`setProgrammingModel`.** The first model installed becomes the default.
- **The handlers.**
  - Worker termination: announce, run the `appTerminate` hooks, end the stream, exit 0.
  - Function load: lock indexing, acknowledge, rethrow a blocking start error, load legacy functions.
  - Environment reload: reset the application, replace `process.env`, change directory and start the app, re-check the Node.js version, answer with the capabilities.
- **The helpers.** Environment-flag parsing, the Node.js end-of-life check against the constant tables, and the bootstrap's own copy of that check.

The Dafny takes the source's own form:
- Objects whose fields change are classes with `modifies` clauses:
  - `WorkerContext`, `LogHookContext`, `AppContext` and `process`.
  - The terminate context is a class too, because its getters read through to the worker's current application.
- Handlers and loops are methods proved against specification functions:
  - `RunCallbacks`, `RunLogHooks`, `LoggedRecord`, `ExecutionRecords`, `NodeVersionRecords`, `ReloadRecords` and `ReloadAnswer`.
- Pure helpers are functions with lemmas.

A user callback is described by the script of what it does to its context: set the message or level, try to replace a property, or throw. A ghost trace `hookCalls` on the worker records every callback the pipeline called, so the contracts can say which callbacks ran.

Collaborators the core calls but does not define are inputs:
- the clock reading (`today`, a `YYYY-MM` string)
- the legacy loader's outcome
- `path.relative`-based path equality, as a function value
- the worker metadata and capabilities
- whether `process.chdir` and `startApp` succeed

## Model

| member | source | states |
|---|---|---|
| Worker.WorkerContext.constructor | src/WorkerContext.ts:12-23 | The worker starts with a fresh, cleared application and no model, host version, id or stream. |
| Worker.WorkerContext.Id | src/WorkerContext.ts:25-31 | The id succeeds exactly when it is set and non-empty, and then returns it. Otherwise it fails with the "WorkerContext has not been initialized yet." system error. |
| Worker.WorkerContext.SetId | src/WorkerContext.ts:33-35 | A non-empty id reads back unchanged; an empty one reads as uninitialised. Nothing else changes. |
| Worker.WorkerContext.EventStream | src/WorkerContext.ts:37-43 | The stream getter succeeds exactly when a stream was set. Otherwise it fails with the initialisation error. |
| Worker.WorkerContext.SetEventStream | src/WorkerContext.ts:45-47 | The stream reads back unchanged, and only the stream changed. |
| Worker.WorkerContext.HostVersion | src/WorkerContext.ts:49-55 | The host version succeeds exactly when it is set and non-empty. Otherwise it fails with "Cannot access hostVersion before worker init". |
| Worker.WorkerContext.SetHostVersion | src/WorkerContext.ts:16-19 | A non-empty host version reads back unchanged; an empty one reads as not initialised. |
| Worker.WorkerContext.ResetApp | src/WorkerContext.ts:57-60 | A fresh, cleared application replaces the old one and starts with the default programming model. The default, id, host version and stream are kept. |
| Worker.WorkerContext.Log | src/WorkerContext.ts:67-87 | With a stream, exactly one record is appended: `LoggedRecord(log, logHooks)`, i.e. the hooks' rewrite for a User record, and the record as given otherwise or when a hook throws. The call returns normally whatever the hooks do. Without a stream it fails with the initialisation error. Only the stream changes. |
| Worker.WorkerContext.EndEventStream | src/eventHandlers/terminateWorker.ts:34 | The stream is marked ended with its records kept. Without a stream it fails with the initialisation error. |
| Worker.LogHookContext.constructor | src/hooks/LogHookContext.ts:29-30 | Hook data defaults to empty, and the invocation context to absent, when there is no invocation log context. |
| Worker.LogHookContext.New | src/hooks/LogHookContext.ts:24-31 | A missing `level`, `message` or `logCategory` fails with a missing-property error naming the first one missing, in that order. Otherwise the result is a fresh context carrying the record's message, level and category. |
| Worker.LogHookContext.SetHookData | src/hooks/LogHookContext.ts:36-38 | Replacing `hookData` throws a ReadOnlyError naming it. |
| Worker.LogHookContext.SetCategory | src/hooks/LogHookContext.ts:42-44 | Replacing `category` throws a ReadOnlyError naming it. |
| Worker.LogHookContext.SetAppHookData | src/hooks/LogHookContext.ts:48-50 | Replacing `appHookData` throws a ReadOnlyError naming it. |
| Worker.LogHookContext.SetInvocationContext | src/hooks/LogHookContext.ts:54-56 | Replacing `invocationContext` throws a ReadOnlyError naming it. |
| Worker.LogHookContext.Apply | src/WorkerContext.ts:70-72 | One log hook's run leaves the context's message and level, and its outcome, as `ApplyLogActions` describes. |
| App.AppContext.constructor | src/WorkerContext.ts:13 | A new application context has no directory, start error, lock, hooks, hook data or programming model. |
| HookRegistry.GetHooks | src/hooks/getHooks.ts:8-23 | Each of the five hook names maps to its own registry on the current application. Any other name is an AzFuncRangeError quoting it, and only those names succeed. |
| Hooks.RunCallbacks | src/hooks/executeHooks.ts:24-26 | Callbacks are called in order until one throws. Every callback before the last one called returned. The run passes iff all were called and all returned. A failed run's error is the last callback's own. |
| Hooks.FirstFailurePropagates | src/hooks/executeHooks.ts:24-26 | If callback k is the first to throw, exactly k + 1 callbacks run and its error is rethrown unchanged. |
| Hooks.LogActionsOutcome | src/hooks/LogHookContext.ts:33-56 | On a log context, a callback throws exactly when the generic pipeline says it does for a context guarding hookData, category, appHookData and invocationContext. |
| Hooks.LogHooksFailLikePipeline | src/WorkerContext.ts:68-72 | The log hooks fail exactly when the generic pipeline over the same callbacks fails, and with the same error. |
| Hooks.LaterLogHooksSkipped | src/WorkerContext.ts:70-72 | Once hook k throws, the hooks after it make no difference to the run. |
| Hooks.SystemRecordUnchanged | src/WorkerContext.ts:74-79 | A record that is not a User record is written exactly as built, whatever the hooks do. |
| Hooks.LoggedRecordKeepsIdentity | src/WorkerContext.ts:74-79 | Hooks never change a record's log category, invocation id or category. |
| Hooks.UserRecordRewritten | src/WorkerContext.ts:68-82 | If no hook throws, a User record carries the message and level the hooks left. If one throws, the record goes out as built. |
| Hooks.RewritingHookExample | src/WorkerContext.ts:74-79 | A hook setting message "X" and level Error rewrites a User record and leaves a System record alone. |
| HookExecution.ExecutionRecords | src/hooks/executeHooks.ts:16-34 | A non-empty run writes "Executing n ..." first. It writes "Executed ..." second exactly when no callback threw. |
| HookExecution.ExecutingRecordCount | src/hooks/executeHooks.ts:17-23 | The announcement's count reads back as the number of callbacks. |
| HookExecution.CallCallbacks | src/hooks/executeHooks.ts:24-26 | The callbacks are called in registration order and recorded, exactly those `RunCallbacks` calls. The run's outcome is returned. Nothing but the record of calls changes. |
| HookExecution.ExecuteHooks | src/hooks/executeHooks.ts:9-35 | The outcomes are these:<br>1. An unknown name fails with the range error before anything happens.<br>2. An empty registry does nothing.<br>3. Otherwise, without a stream the run fails with the initialisation error and no callback is called.<br>4. With a stream, exactly the callbacks of `RunCallbacks` are called, in order, and the records `ExecutionRecords` are written. The run's error is propagated. |
| ProgrammingModels.SetProgrammingModel | src/coreApi/setProgrammingModel.ts:8-20 | Without a current model, the new one becomes both the default and the application's model, silently. With one, a "Setting Node.js programming model ..." record is written, the default is kept and the model is replaced. If that record cannot be written, nothing changes. No other application field changes. |
| ProgrammingModels.ResetThenSetProgrammingModel | src/WorkerContext.ts:57-60 | After a reset with a default, installing a model logs and keeps the default. Without a default, the model becomes the default. |
| Termination.AppTerminateContext.constructor | src/eventHandlers/terminateWorker.ts:17-30 | The terminate context reads through to the worker's current application. |
| Termination.AppTerminateContext.SetHookData | src/eventHandlers/terminateWorker.ts:21-23 | Replacing `hookData` throws a ReadOnlyError naming it. |
| Termination.AppTerminateContext.SetAppHookData | src/eventHandlers/terminateWorker.ts:27-29 | Replacing `appHookData` throws a ReadOnlyError naming it. |
| Termination.AppTerminateContext.Call | src/eventHandlers/terminateWorker.ts:17-32 | An appTerminate hook returns or throws as the pipeline says for a context guarding hookData and appHookData. This is the guard set `TerminateWorker` hands to `ExecuteHooks`. |
| Termination.TerminateWorker | src/eventHandlers/terminateWorker.ts:10-36 | Without a stream it fails with the initialisation error and nothing changes. Otherwise it writes the "Received workerTerminate ..." record and then the hook records. The appTerminate callbacks run as the pipeline says. The stream is ended, and the process exits with code 0, exactly when no hook threw. |
| FunctionLoading.GetDefaultResponse | src/eventHandlers/FunctionLoadHandler.ts:17-19 | The default response echoes the request's function id. |
| FunctionLoading.LoadFailure | src/eventHandlers/FunctionLoadHandler.ts:41-46 | A failed load is flagged as a system error and keeps its kind. Its message becomes "Worker was unable to load function NAME: 'MESSAGE'", where a null name reads "null" and a missing one "undefined". |
| FunctionLoading.HandleFunctionLoad | src/eventHandlers/FunctionLoadHandler.ts:21-51 | Worker indexing is locked in every case. An unreadable id or a missing stream fails with the initialisation error. Otherwise the "received" record is written, then:<br>1. A blocking start error is rethrown as is.<br>2. Indexing mode answers the default response.<br>3. Legacy mode requires functionId then metadata, calls the loader, and maps its failure through `LoadFailure`. |
| EnvironmentReload.GetDefaultResponse | src/eventHandlers/FunctionEnvironmentReloadHandler.ts:23-27 | The default response carries the worker metadata only. |
| EnvironmentReload.DirectoryNotices | src/eventHandlers/FunctionEnvironmentReloadHandler.ts:30-48 | "Not defined" is written iff no directory is requested. "Has not changed" is written iff both directories are set and equal as paths. Never both. |
| EnvironmentReload.LogDirectoryNotices | src/eventHandlers/FunctionEnvironmentReloadHandler.ts:30-48 | The notices are appended, and only the stream changes. Without a stream, any notice fails with the initialisation error. |
| EnvironmentReload.ResetAndReplaceEnvironment | src/eventHandlers/FunctionEnvironmentReloadHandler.ts:50-65 | The application is reset before the environment is touched. The count record is written. The environment then holds exactly the requested variables. |
| EnvironmentReload.MoveAndStart | src/eventHandlers/FunctionEnvironmentReloadHandler.ts:68-78 | The move is announced, the working directory changes only if chdir succeeds, and the app starts only after it. The first failure is returned. |
| EnvironmentReload.ValidateAndAnswer | src/eventHandlers/FunctionEnvironmentReloadHandler.ts:80-84 | The version check's records are written. With a stream, the answer is `ValidationAnswer`: the version check's error if it failed, else the capability query's error if that failed, else the response with the capabilities under the `replace` strategy. |
| EnvironmentReload.MoveIfGiven | src/eventHandlers/FunctionEnvironmentReloadHandler.ts:68-78 | Without a directory nothing happens. With one, the move is announced and it fails exactly when chdir or the start fails. The working directory changes only after a successful chdir. |
| EnvironmentReload.MoveValidateAndAnswer | src/eventHandlers/FunctionEnvironmentReloadHandler.ts:68-84 | The directory is changed only when one is given. The metadata is refreshed after a start. With a stream, exactly `TrailingRecords` are written: the move record, then the version check's records unless the move failed. With a stream, the answer is exactly `ReloadAnswer`. |
| EnvironmentReload.ReloadAnswerOutcomes | src/eventHandlers/FunctionEnvironmentReloadHandler.ts:68-84 | The first failing step decides the answer, in order: the chdir error, then the start error, then the parse error of a version without exactly two dots, then the capability query's error. The reload succeeds exactly when none of these fails. It then answers with the current metadata, the capabilities and the `replace` strategy. |
| EnvironmentReload.HandleEnvironmentReload | src/eventHandlers/FunctionEnvironmentReloadHandler.ts:29-85 | Steps happen in order, with no rollback:<br>1. The application is reset.<br>2. The environment becomes exactly the requested variables.<br>3. The working directory becomes the requested one only if it is set.<br>With a stream, exactly the records of `ReloadRecords` are written, whether the reload completes or stops at a failed move, version check or capability query. With a stream, the answer is exactly `ReloadAnswer`, so the first failing step's error propagates (see `ReloadAnswerOutcomes`). Success answers with the capabilities and the `replace` strategy. Without a stream it fails with the initialisation error before the environment changes. |
| NodeProcess.Process.DeleteAllVariables | src/eventHandlers/FunctionEnvironmentReloadHandler.ts:63 | Every variable is deleted; the environment is empty. |
| NodeProcess.Process.AssignVariables | src/eventHandlers/FunctionEnvironmentReloadHandler.ts:65 | The environment is the old one overridden by the given variables. |
| NodeProcess.Process.ReplaceEnvironment | src/eventHandlers/FunctionEnvironmentReloadHandler.ts:62-65 | The environment becomes exactly the given variables. |
| NodeProcess.Process.Chdir | src/eventHandlers/FunctionEnvironmentReloadHandler.ts:74 | The working directory changes exactly when the change succeeds. A refusal is returned as the error. |
| NodeProcess.Process.Exit | src/eventHandlers/terminateWorker.ts:35 | The exit code is recorded. |
| Util.EnvironmentVariableUnsetValues | src/utils/util.ts:9-11 | A flag is unset exactly for undefined, null, false, 0, "", "0" and "false" in any letter case. |
| Util.IntToStringUnset | src/utils/util.ts:10 | A number's rendering matches `/^(false\|0)?$/i` exactly when it is 0. |
| Util.GetNodeVersionLog | src/utils/util.ts:27-57 | The version fails to parse iff it does not have exactly two dots, and the error quotes it. Otherwise the major (text before the first dot) is classified. Every record is a Warning or an Error. |
| Util.UnsupportedMajorIncompatible | src/utils/util.ts:37-42 | A major missing from the tables is an "Incompatible Node.js version" Warning at any date. |
| Util.SupportedMajorByCalendar | src/utils/util.ts:43-56 | For a supported major on a well-formed month:<br>- from the EOL month on, "reached EOL" at Error;<br>- from the warning month up to the EOL month, "will reach EOL" at Warning;<br>- before the warning month, nothing. |
| Util.BothRemarksReachable | src/utils/util.ts:43-54 | Every supported major reaches both remarks, in its warning month and in its EOL month. |
| Util.SupportedMajorDates | src/constants.ts:7-23 | A supported major has non-empty, well-formed dates, and its warning month comes before its EOL month. |
| Util.NodeVersionRecords | src/utils/util.ts:59-77 | At most one record is written, and one exactly when the check failed or has something to say. |
| Util.LogVersionCheck | src/utils/util.ts:60-76 | For any classification result, its record is written as a System record with its message and level. A parse error is logged at Error as "Error validating Node.js version. ..." and rethrown. Without a stream, any attempt to log fails with the initialisation error. |
| Util.ValidateNodeVersion | src/utils/util.ts:59-77 | With a stream, the classification's record is written as a System record. A parse error is logged at Error as "Error validating Node.js version. ..." and rethrown. Without a stream, any attempt to log fails with the initialisation error. |
| Constants.TablesShareKeys | src/constants.ts:7-23 | Both tables list exactly the majors v14 to v24. |
| Constants.DatesWellFormed | src/constants.ts:7-23 | Every table date is a zero-padded `YYYY-MM` stamp. |
| Constants.WarningSortsBeforeEol | src/constants.ts:7-23 | Every warning date sorts before its EOL date as strings. |
| Constants.WarningPrecedesEol | src/constants.ts:7-23 | Every warning month is chronologically before its EOL month. |
| YearMonth.LexOrderIsChronological | src/utils/util.ts:43-49 | For well-formed stamps, the string comparison `today >= date` is chronological comparison. |
| YearMonth.PadStart | src/utils/util.ts:19 | `padStart` reaches the width, keeps the string as its suffix, and every character added in front is the fill character. |
| YearMonth.PadTwoDigits | src/utils/util.ts:19 | Padding a month to two digits keeps its value. |
| YearMonth.FormatIsYearMonth | src/utils/util.ts:17-20 | For a four-digit year, the clock reading is a well-formed stamp of that year and month. |
| Text.Split | src/utils/util.ts:28 | `split('.')` gives one more part than there are dots, and no part contains a dot. The first part is the text before the first dot. |
| Text.JoinSplit | src/utils/util.ts:28 | Joining the parts of a split gives back the string. |
| Text.SplitJoin | src/utils/util.ts:28 | Splitting a join of dot-free parts gives back the parts. |
| Text.TakeUntil | src/utils/util.ts:33 | The major never contains a dot. |
| Text.NatToStringValue | src/hooks/executeHooks.ts:18 | A rendered count reads back as the number. |
| Text.NatToStringNoLeadingZero | src/utils/util.ts:10 | `String(n)` starts with '0' only for 0 itself. |
| Text.DigitsLexOrder | src/utils/util.ts:43-49 | For equal-length digit strings, string order is numeric order. |
| Bootstrap.AgreesWithWorker | src/nodejsWorker.ts:20-46 | The bootstrap's own check agrees with the worker's on every version and date:<br>- a parse error is printed with the error prefix and rethrown;<br>- a Warning record becomes a `console.warn` line with the warn prefix;<br>- an Error record becomes a `console.error` line with the error prefix;<br>- no record prints nothing. |
| Bootstrap.ClassifyAgrees | src/nodejsWorker.ts:27-40 | For every major and date, the bootstrap's line carries the worker's message at the matching console level. |
| Bootstrap.UnparsableVersionRethrown | src/nodejsWorker.ts:20-46 | A version without exactly two dots prints one error line and rethrows the parse error. |

## Left out

- **Not modelled**
  - Transport and scheduling: the gRPC transport, message routing, `async`/`await` scheduling and concurrency.
  - Bundle loading in the bootstrap (src/nodejsWorker.ts:50-59) and `process.argv`: these are I/O.
  - `isNode20Plus` (src/utils/util.ts:13-15) depends on the semver library, which is not part of this model.
- **Collaborators as inputs**
  - `today` is an input. `YearMonth.Format` models how the clock reading is formatted.
  - `startApp` is reduced to whether it succeeds; what it does to the application is not modelled.
  - `getWorkerMetadata`, `getWorkerCapabilities` and the legacy loader are oracle values.
  - `process.chdir` is reduced to an optional error.
  - `isPathEqual` (`path.relative(a, b) === ''`) is an arbitrary function value, because the path library is not part of this model.
- EnvironmentReload.HandleEnvironmentReload: a successful `startApp` writes no records, runs no hooks and leaves the application cleared. The real start loads the entry point and runs the appStart hooks through `executeHooks`; that writes its own records (such as "Loading entry point file" and "Executing N "appStart" hooks"), adds to the hook calls and registers hooks on the new application. So the clauses that say exactly `ReloadRecords` are written, that the hook calls are unchanged, and that the application is cleared are exact only for reloads that stop before the start succeeds or give no directory.
- EnvironmentReload.MoveValidateAndAnswer: the same simplification of `startApp` applies; its exact `TrailingRecords` and unchanged hook calls leave out what a successful start writes and runs.
- EnvironmentReload.MoveIfGiven: the same simplification of `startApp` applies; its exact `MoveRecords` leaves out what a successful start writes.
- EnvironmentReload.MoveAndStart: the same simplification of `startApp` applies; only the start's outcome is modelled.
- **Files not part of this model:** AppContext.ts, errors.ts, nonNull.ts and the protobuf converters.
  - The model assumes a new application context starts with no hooks, no hook data and every flag off; AppContext.ts is not part of this model.
  - `toCoreLog`/`fromCoreLogLevel` are identities on the level.
- **Hook callbacks**
  - They are scripts of context actions. Changes a callback makes to the contents of hook data are not modelled.
  - So are callbacks that register further hooks while a run is in progress.
  - The property set of the object passed to `executeHooks` is a parameter (`guarded`).
- Worker.WorkerContext.hookCalls records only callbacks run by `executeHooks`. Log hooks run inside `log` are specified through the records they produce.
- **JavaScript semantics**
  - Table lookups use the tables' own keys only. Inherited names such as "constructor", which a JavaScript object lookup would also find, are not modelled.
  - Numbers in environment flags are integers; non-integer and special floating-point values are left out.
  - Strings are sequences of Unicode scalar values (Dafny's `char`), not UTF-16 code units. UTF-16 lengths, surrogate code units and code-unit ordering are not modelled. This changes no result of the core, because the strings it compares and splits (versions, dates, the unset flag spellings) are ASCII.
  - There is no Unicode case folding: the `i` flag is modelled as ASCII case folding.
- YearMonth.FormatIsYearMonth: holds only for years 1000 to 9999. Other years do not give a `YYYY-MM` stamp, and their string comparison is not chronological.
- **Where the code was followed**
  - src/utils/util.ts imports `upgradeUrl` from src/constants.ts, which does not define it. The model uses the bootstrap's value (src/nodejsWorker.ts:9) for both checks.
  - `resetApp` is called with the directory (src/eventHandlers/FunctionEnvironmentReloadHandler.ts:50) but takes no argument. The model ignores it, as the code does.
  - The reload handler re-runs `validateNodeVersion`. The model includes this step, with `process.version` as the version.
