/** Error classification of src/lib/utils/error-handler.ts.

    A thrown JavaScript value is modelled by `Thrown`: an `AppError` (or one
    of its subclasses), any other `Error`, a string, or anything else.
    `new Date()` becomes the `now` parameter. */
module ErrorHandler {
  import opened Wrappers

  /** A value stored under a key of an error context. */
  datatype ContextValue = Undefined | Text(text: string) | Number(n: int) | Opaque(tag: nat)

  type Context = map<string, ContextValue>

  /** An instance of `AppError` or one of its subclasses; `name` is the class name. */
  datatype AppError = AppError(
    name: string,
    message: string,
    code: Option<string>,
    timestamp: int,
    context: Option<Context>)

  /** The record `toJSON` produces. */
  datatype ErrorInfo = ErrorInfo(
    message: string,
    code: Option<string>,
    timestamp: int,
    context: Option<Context>)

  /** What a `catch` clause can receive. */
  datatype Thrown =
    | ThrownApp(app: AppError)
    | ThrownError(message: string)
    | ThrownString(text: string)
    | ThrownOther

  /** The outcome of one awaited call into code outside the model: the value it yields or
      the value it throws. */
  datatype Step<T> = Done(value: T) | Threw(thrown: Thrown)

  /** The six subclasses of `AppError`. */
  datatype Subclass = Media | Recording | Playback | Project | Database | FileSystem

  const UnknownCode: string := "UNKNOWN_ERROR"
  const UnknownMessage: string := "An unknown error occurred"
  const HandlerContextKey: string := "handlerContext"

  function SubclassCode(kind: Subclass): string {
    match kind
    case Media => "MEDIA_ERROR"
    case Recording => "RECORDING_ERROR"
    case Playback => "PLAYBACK_ERROR"
    case Project => "PROJECT_ERROR"
    case Database => "DATABASE_ERROR"
    case FileSystem => "FILESYSTEM_ERROR"
  }

  function SubclassName(kind: Subclass): string {
    match kind
    case Media => "MediaError"
    case Recording => "RecordingError"
    case Playback => "PlaybackError"
    case Project => "ProjectError"
    case Database => "DatabaseError"
    case FileSystem => "FileSystemError"
  }

  /** `new AppError(message, code, context)` at time `now`. */
  function NewAppError(message: string, code: Option<string>, context: Option<Context>, now: int): AppError {
    AppError("AppError", message, code, now, context)
  }

  /** `new MediaError(message, context)` and its five siblings: the subclass fixes the code. */
  function NewSubclassError(kind: Subclass, message: string, context: Option<Context>, now: int): (e: AppError)
    ensures e.code == Some(SubclassCode(kind))
    ensures e.message == message && e.context == context && e.timestamp == now
    ensures e.name == SubclassName(kind) && e.name != "AppError"
  {
    AppError(SubclassName(kind), message, Some(SubclassCode(kind)), now, context)
  }

  /** Distinct subclasses carry distinct codes, none of which is the code `handleError` gives
      to foreign values: the code of an `AppError` tells where it came from. */
  lemma SubclassCodesIdentifyKind(a: Subclass, b: Subclass, message: string, context: Option<Context>, now: int)
    ensures NewSubclassError(a, message, context, now).code == NewSubclassError(b, message, context, now).code <==> a == b
    ensures NewSubclassError(a, message, context, now).code != Some(UnknownCode)
  {
  }

  /** `toJSON`: every field except the class name. */
  function ToJson(e: AppError): (info: ErrorInfo)
    ensures AppError(e.name, info.message, info.code, info.timestamp, info.context) == e
  {
    ErrorInfo(e.message, e.code, e.timestamp, e.context)
  }

  /** `toJSON` loses nothing but the class name: two errors of the same class with the same
      JSON are the same error. */
  lemma ToJsonInjectivePerClass(a: AppError, b: AppError)
    requires a.name == b.name
    ensures ToJson(a) == ToJson(b) <==> a == b
  {
  }

  /** `isAppError`: `instanceof AppError`, which holds for every subclass as well. */
  predicate IsAppError(error: Thrown): (r: bool)
    ensures r <==> exists app: AppError :: error == ThrownApp(app)
  {
    error.ThrownApp?
  }

  /** `formatErrorMessage`. */
  function FormatErrorMessage(error: Thrown): (msg: string)
    ensures IsAppError(error) ==> msg == error.app.message
    ensures error.ThrownError? ==> msg == error.message
    ensures error.ThrownString? ==> msg == error.text
    ensures error.ThrownOther? ==> msg == UnknownMessage
  {
    match error
    case ThrownApp(app) => app.message
    case ThrownError(m) => m
    case ThrownString(s) => s
    case ThrownOther => UnknownMessage
  }

  /** The catch-clause idiom `error instanceof Error ? error.message : fallback`. */
  function ErrorMessageOr(error: Thrown, fallback: string): (msg: string)
    ensures error.ThrownApp? || error.ThrownError? ==> msg == FormatErrorMessage(error)
    ensures error.ThrownString? || error.ThrownOther? ==> msg == fallback
  {
    match error
    case ThrownApp(app) => app.message
    case ThrownError(m) => m
    case _ => fallback
  }

  /** The context `handleError` attaches: the additional context with `handlerContext` set last. */
  function HandlerContext(additional: Option<Context>, handlerContext: Option<string>): (ctx: Context)
    ensures HandlerContextKey in ctx
    ensures ctx[HandlerContextKey] == if handlerContext.Some? then Text(handlerContext.value) else Undefined
    ensures forall k :: k in ctx && k != HandlerContextKey ==> additional.Some? && k in additional.value && ctx[k] == additional.value[k]
    ensures additional.Some? ==> forall k :: k in additional.value && k != HandlerContextKey ==> k in ctx && ctx[k] == additional.value[k]
  {
    var base := additional.GetOr(map[]);
    base[HandlerContextKey := if handlerContext.Some? then Text(handlerContext.value) else Undefined]
  }

  /** `createErrorHandler(handlerContext).handleError(error, additional)` at time `now`. */
  function HandleError(handlerContext: Option<string>, error: Thrown, additional: Option<Context>, now: int): (r: AppError)
    ensures IsAppError(error) ==> r == error.app
    ensures !IsAppError(error) ==>
      && r.name == "AppError"
      && r.code == Some(UnknownCode)
      && r.timestamp == now
      && r.context == Some(HandlerContext(additional, handlerContext))
    ensures error.ThrownError? ==> r.message == error.message
    ensures error.ThrownString? ==> r.message == error.text
    ensures error.ThrownOther? ==> r.message == UnknownMessage
  {
    var ctx := HandlerContext(additional, handlerContext);
    match error
    case ThrownApp(app) => app
    case ThrownError(m) => NewAppError(m, Some(UnknownCode), Some(ctx), now)
    case ThrownString(s) => NewAppError(s, Some(UnknownCode), Some(ctx), now)
    case ThrownOther => NewAppError(UnknownMessage, Some(UnknownCode), Some(ctx), now)
  }

  /** The two classifiers agree: the message `handleError` produces is the one
      `formatErrorMessage` gives for the same value. */
  lemma HandleErrorAgreesWithFormat(handlerContext: Option<string>, error: Thrown, additional: Option<Context>, now: int)
    ensures HandleError(handlerContext, error, additional, now).message == FormatErrorMessage(error)
  {
  }

  /** `handleError` is idempotent: classifying its own result again returns that result. */
  lemma HandleErrorIdempotent(handlerContext: Option<string>, error: Thrown, additional: Option<Context>, now: int, later: int)
    ensures var e := HandleError(handlerContext, error, additional, now);
            HandleError(handlerContext, ThrownApp(e), additional, later) == e
  {
  }
}
