/**
 * The shapes the worker exchanges with the host and throws: log records, log levels and
 * categories, errors, programming models and hook data.
 */
module Rpc {
  import opened Wrappers

  /** `RpcLog.Level`. */
  datatype Level = Trace | Debug | Information | Warning | Error | Critical

  /** `RpcLog.RpcLogCategory`: whether a record comes from user code or from the worker. */
  datatype LogCategory = User | System

  /**
   * `IRpcLog`: every field is optional on the wire. `category` is the free-form
   * hook/invocation category, distinct from `logCategory`.
   */
  datatype RpcLog = RpcLog(
    message: Option<string>,
    level: Option<Level>,
    logCategory: Option<LogCategory>,
    invocationId: Option<string>,
    category: Option<string>)

  /** A record the worker itself writes: System category, no invocation id, no category. */
  function SystemLog(message: string, level: Level): RpcLog {
    RpcLog(Some(message), Some(level), Some(System), None, None)
  }

  /** The classes of error the core throws. */
  datatype ErrorKind =
    | SystemErrorKind          // AzFuncSystemError
    | RangeErrorKind           // AzFuncRangeError
    | ReadOnlyErrorKind        // ReadOnlyError; its message holds the property name
    | MissingPropertyKind      // thrown by nonNullProp; its message holds the property name
    | PlainErrorKind           // any other Error object

  /** A thrown error: its class, its message and the `isAzureFunctionsSystemError` flag. */
  datatype Exception = Exception(kind: ErrorKind, message: string, isSystemError: bool)

  const NotInitializedMessage: string := "WorkerContext has not been initialized yet."

  function NotInitializedError(): Exception {
    Exception(SystemErrorKind, NotInitializedMessage, true)
  }

  function HostVersionNotInitializedError(): Exception {
    Exception(SystemErrorKind, "Cannot access hostVersion before worker init", true)
  }

  function UnrecognizedHookError(hookName: string): Exception {
    Exception(RangeErrorKind, "Unrecognized hook \"" + hookName + "\"", false)
  }

  function MissingPropertyError(property: string): Exception {
    Exception(MissingPropertyKind, property, false)
  }

  /** The properties of a hook context that a callback may try to replace wholesale. */
  datatype Property = HookDataProperty | CategoryProperty | AppHookDataProperty | InvocationContextProperty

  function PropertyName(p: Property): string {
    match p
    case HookDataProperty => "hookData"
    case CategoryProperty => "category"
    case AppHookDataProperty => "appHookData"
    case InvocationContextProperty => "invocationContext"
  }

  function ReadOnlyError(p: Property): Exception {
    Exception(ReadOnlyErrorKind, PropertyName(p), false)
  }

  /** `String(err)`: the error's name, a colon and its message. */
  function ErrorToString(e: Exception): string {
    var name := match e.kind
      case SystemErrorKind => "AzFuncSystemError"
      case RangeErrorKind => "AzFuncRangeError"
      case ReadOnlyErrorKind => "ReadOnlyError"
      case MissingPropertyKind => "AzFuncSystemError"
      case PlainErrorKind => "Error";
    name + ": " + e.message
  }

  /** A programming model plugin, identified by its name and version. */
  datatype ProgrammingModel = ProgrammingModel(name: string, version: string)

  /** Free-form data shared between hooks. */
  type HookData = map<string, string>

  /** The parsed package.json of the function app. */
  type PackageJson = map<string, string>

  /** An invocation's context, opaque to the core. */
  datatype InvocationContext = InvocationContext(invocationId: string)

  /** What an invocation passes along with its log records. */
  datatype InvocationLogContext = InvocationLogContext(hookData: HookData, invocationContext: InvocationContext)
}
