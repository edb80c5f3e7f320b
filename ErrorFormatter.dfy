/** The Angular client's `formatDatabaseError`: the text shown to the user for a failed HTTP
    call. Values of the response are JavaScript values, and the formatter's choices follow
    JavaScript truthiness. */
module ErrorFormatter {
  import opened Wrappers
  import opened Js
  import GlobalExceptionHandler

  // ---------------------------------------------------------------- the input

  /** The fields of the backend's error body the formatter reads. */
  datatype DbError = DbError(error: JsValue, message: JsValue, errorCode: JsValue,
                             databasePath: JsValue, rootMessage: JsValue)

  /** What reaches the formatter: something falsy or not an object, or an `HttpErrorResponse`
      whose `error` field is an object (`Some`) or is not (`None`). */
  datatype Thrown =
    | NotAnObject
    | Response(status: JsValue, statusText: JsValue, message: JsValue, body: Option<DbError>)

  // ---------------------------------------------------------------- messages

  const UnknownError := "An unknown error occurred"
  const CannotConnect := "Cannot connect to server. Please check if the backend is running."
  const GenericError := "An error occurred"
  const LockedMessage := "Database is locked. Please try again in a moment."
  const UnknownPath := "unknown path"

  /** The codes whose message names the database file, with the text before the path. */
  function PathPrefix(code: string): Option<string> {
    if code == "DB_FILE_NOT_FOUND" then Some("Database file not found at: ")
    else if code == "DB_PERMISSION_DENIED" then Some("Cannot access database file (permission denied): ")
    else if code == "DB_SCHEMA_INVALID" then Some("Database schema is invalid or corrupted: ")
    else if code == "DB_MIGRATION_FAILED" then Some("Failed to update database structure: ")
    else None
  }

  /** The codes whose message carries the failure's detail, with the text before it. */
  function DetailPrefix(code: string): Option<string> {
    if code == "DB_CONNECTION_FAILED" then Some("Failed to connect to database: ")
    else if code == "TASK_CREATE_FAILED" then Some("Failed to create task: ")
    else if code == "TASK_UPDATE_FAILED" then Some("Failed to update task: ")
    else if code == "TASK_DELETE_FAILED" then Some("Failed to delete task: ")
    else if code == "TASK_QUERY_FAILED" then Some("Failed to retrieve tasks: ")
    else None
  }

  /** The code is one the switch names. */
  predicate IsKnownCode(code: string) {
    PathPrefix(code).Some? || DetailPrefix(code).Some? || code == "DB_LOCKED"
  }

  /** `databasePath || 'unknown path'`, as written in the message. */
  function PathText(d: DbError): string {
    Render(Or(d.databasePath, Str(UnknownPath)))
  }

  /** `rootMessage || message`, as written in the message. */
  function DetailText(d: DbError): string {
    Render(Or(d.rootMessage, d.message))
  }

  /** The switch on `errorCode`: a case per known code and the default. */
  function Describe(d: DbError): (msg: string)
    ensures d.errorCode.Str? && PathPrefix(d.errorCode.s).Some? ==> msg == PathPrefix(d.errorCode.s).value + PathText(d)
    ensures d.errorCode.Str? && DetailPrefix(d.errorCode.s).Some? ==> msg == DetailPrefix(d.errorCode.s).value + DetailText(d)
    ensures d.errorCode == Str("DB_LOCKED") ==> msg == LockedMessage
  {
    match d.errorCode
    case Str("DB_FILE_NOT_FOUND") => "Database file not found at: " + PathText(d)
    case Str("DB_PERMISSION_DENIED") => "Cannot access database file (permission denied): " + PathText(d)
    case Str("DB_LOCKED") => LockedMessage
    case Str("DB_CONNECTION_FAILED") => "Failed to connect to database: " + DetailText(d)
    case Str("DB_SCHEMA_INVALID") => "Database schema is invalid or corrupted: " + PathText(d)
    case Str("DB_MIGRATION_FAILED") => "Failed to update database structure: " + PathText(d)
    case Str("TASK_CREATE_FAILED") => "Failed to create task: " + DetailText(d)
    case Str("TASK_UPDATE_FAILED") => "Failed to update task: " + DetailText(d)
    case Str("TASK_DELETE_FAILED") => "Failed to delete task: " + DetailText(d)
    case Str("TASK_QUERY_FAILED") => "Failed to retrieve tasks: " + DetailText(d)
    case _ =>
      if Truthy(d.rootMessage) then Render(d.error) + ": " + Render(d.rootMessage)
      else Render(Or(d.message, Str(GenericError)))
  }

  /** The message for a response without an error code. */
  function Fallback(status: JsValue, statusText: JsValue, message: JsValue): string {
    if status == Num(0) then CannotConnect
    else if Truthy(statusText) then "Server error: " + Render(statusText)
    else Render(Or(message, Str(GenericError)))
  }

  /** `formatDatabaseError`. */
  function FormatDatabaseError(e: Thrown): (msg: string)
    ensures e.NotAnObject? ==> msg == UnknownError
  {
    match e
    case NotAnObject => UnknownError
    case Response(status, statusText, message, body) =>
      if body.None? || !Truthy(body.value.errorCode) then Fallback(status, statusText, message)
      else Describe(body.value)
  }

  // ---------------------------------------------------------------- properties

  /** Without an object body carrying an error code: status 0 first, then the status text, then
      the response's message, then the generic text. */
  lemma FallbackOrder(e: Thrown)
    requires e.Response? && (e.body.None? || !Truthy(e.body.value.errorCode))
    ensures e.status == Num(0) ==> FormatDatabaseError(e) == CannotConnect
    ensures e.status != Num(0) && Truthy(e.statusText) ==>
      FormatDatabaseError(e) == "Server error: " + Render(e.statusText)
    ensures e.status != Num(0) && !Truthy(e.statusText) && Truthy(e.message) ==>
      FormatDatabaseError(e) == Render(e.message)
    ensures e.status != Num(0) && !Truthy(e.statusText) && !Truthy(e.message) ==>
      FormatDatabaseError(e) == GenericError
  {
  }

  /** An error code in the body decides the message, whatever the status and status text. */
  lemma CodeBeatsStatus(status: JsValue, statusText: JsValue, message: JsValue, d: DbError)
    requires Truthy(d.errorCode)
    ensures FormatDatabaseError(Response(status, statusText, message, Some(d))) == Describe(d)
  {
  }

  /** The four path codes write their text followed by the database path, or by "unknown path"
      when the path is missing or empty. */
  lemma PathCodesNameThePath(d: DbError, code: string)
    requires d.errorCode == Str(code) && PathPrefix(code).Some?
    ensures Truthy(d.databasePath) ==> Describe(d) == PathPrefix(code).value + Render(d.databasePath)
    ensures !Truthy(d.databasePath) ==> Describe(d) == PathPrefix(code).value + UnknownPath
  {
    if code == "DB_FILE_NOT_FOUND" {
    } else if code == "DB_PERMISSION_DENIED" {
    } else if code == "DB_SCHEMA_INVALID" {
    } else {
      assert code == "DB_MIGRATION_FAILED";
    }
  }

  /** `DB_LOCKED` gives the same message whatever else the body holds. */
  lemma LockedIsFixed(d1: DbError, d2: DbError)
    requires d1.errorCode == Str("DB_LOCKED") && d2.errorCode == Str("DB_LOCKED")
    ensures Describe(d1) == Describe(d2) == LockedMessage
  {
  }

  /** The connection and task codes write their text followed by the root cause's message, or by
      the body's message when the root message is missing or empty. */
  lemma DetailCodesPreferRootMessage(d: DbError, code: string)
    requires d.errorCode == Str(code) && DetailPrefix(code).Some?
    ensures Truthy(d.rootMessage) ==> Describe(d) == DetailPrefix(code).value + Render(d.rootMessage)
    ensures !Truthy(d.rootMessage) ==> Describe(d) == DetailPrefix(code).value + Render(d.message)
  {
    if code == "DB_CONNECTION_FAILED" {
    } else if code == "TASK_CREATE_FAILED" {
    } else if code == "TASK_UPDATE_FAILED" {
    } else if code == "TASK_DELETE_FAILED" {
    } else {
      assert code == "TASK_QUERY_FAILED";
    }
  }

  /** Any other code gives "error: rootMessage" when there is a root message, else the message,
      else the generic text. */
  lemma UnknownCodeFallsBack(d: DbError)
    requires !(d.errorCode.Str? && IsKnownCode(d.errorCode.s))
    ensures Truthy(d.rootMessage) ==> Describe(d) == Render(d.error) + ": " + Render(d.rootMessage)
    ensures !Truthy(d.rootMessage) && Truthy(d.message) ==> Describe(d) == Render(d.message)
    ensures !Truthy(d.rootMessage) && !Truthy(d.message) ==> Describe(d) == GenericError
  {
  }

  // ---------------------------------------------------------------- from the Spring backend

  /** A value of the Spring error body as JSON delivers it. */
  function FromValue(v: Option<GlobalExceptionHandler.Value>): JsValue {
    if v.None? then Undefined
    else if v.value.Text? then Str(v.value.text)
    else if v.value.Number? then Num(v.value.number)
    else Null
  }

  /** The fields the formatter reads from a Spring error body. */
  function FromBody(body: GlobalExceptionHandler.Body): DbError {
    DbError(FromValue(GlobalExceptionHandler.Get(body, "error")),
            FromValue(GlobalExceptionHandler.Get(body, "message")),
            FromValue(GlobalExceptionHandler.Get(body, "errorCode")),
            FromValue(GlobalExceptionHandler.Get(body, "databasePath")),
            FromValue(GlobalExceptionHandler.Get(body, "rootMessage")))
  }

  /** The Spring body of handler `k` for exception `ex`, as `HandleException` builds it. */
  function SpringBody(k: GlobalExceptionHandler.Handled, h: GlobalExceptionHandler.Heap, ex: nat,
                      path: string, httpMethod: string, timestamp: string,
                      env: GlobalExceptionHandler.Environment): GlobalExceptionHandler.Body
    requires GlobalExceptionHandler.Closed(h) && ex in h
  {
    GlobalExceptionHandler.BaseEntries(k, h, ex, path, httpMethod, timestamp) + GlobalExceptionHandler.Extra(k)
    + GlobalExceptionHandler.RootEntries(h, ex) + GlobalExceptionHandler.TraceEntries(h, ex, env)
  }

  /** The entries a database handler adds: the code, and the path or the operation. */
  lemma ExtraLookups(k: GlobalExceptionHandler.Handled, h: GlobalExceptionHandler.Heap, ex: nat,
                     path: string, httpMethod: string, timestamp: string,
                     env: GlobalExceptionHandler.Environment)
    requires GlobalExceptionHandler.Closed(h) && ex in h
    requires k.DatabaseOperation? || k.DatabaseInitialization?
    ensures GlobalExceptionHandler.Get(SpringBody(k, h, ex, path, httpMethod, timestamp, env), "errorCode")
            == Some(GlobalExceptionHandler.Text(k.errorCode))
    ensures k.DatabaseInitialization? ==>
      GlobalExceptionHandler.Get(SpringBody(k, h, ex, path, httpMethod, timestamp, env), "databasePath")
      == Some(GlobalExceptionHandler.Text(k.databasePath))
  {
    var base := GlobalExceptionHandler.BaseEntries(k, h, ex, path, httpMethod, timestamp);
    var extra := GlobalExceptionHandler.Extra(k);
    var rest := GlobalExceptionHandler.RootEntries(h, ex) + GlobalExceptionHandler.TraceEntries(h, ex, env);
    var body := SpringBody(k, h, ex, path, httpMethod, timestamp, env);
    assert body == base + (extra + rest);
    assert GlobalExceptionHandler.Keys(base) == GlobalExceptionHandler.BaseKeys;
    GlobalExceptionHandler.GetAppend(base, extra + rest, "errorCode");
    GlobalExceptionHandler.GetAppend(extra, rest, "errorCode");
    GlobalExceptionHandler.GetAppend(base, extra + rest, "databasePath");
    GlobalExceptionHandler.GetAppend(extra, rest, "databasePath");
  }

  /** A `DatabaseInitializationException` with a path code reaches the user as the code's text
      followed by its path, or by "unknown path" when the path is empty. */
  lemma SpringInitializationErrorNamesPath(k: GlobalExceptionHandler.Handled, h: GlobalExceptionHandler.Heap,
                                           ex: nat, path: string, httpMethod: string, timestamp: string,
                                           env: GlobalExceptionHandler.Environment, statusText: JsValue)
    requires GlobalExceptionHandler.Closed(h) && ex in h
    requires k.DatabaseInitialization? && PathPrefix(k.errorCode).Some?
    ensures var body := SpringBody(k, h, ex, path, httpMethod, timestamp, env);
      FormatDatabaseError(Response(Num(GlobalExceptionHandler.Status(k)), statusText, Undefined, Some(FromBody(body))))
      == PathPrefix(k.errorCode).value + (if k.databasePath != "" then k.databasePath else UnknownPath)
  {
    var body := SpringBody(k, h, ex, path, httpMethod, timestamp, env);
    ExtraLookups(k, h, ex, path, httpMethod, timestamp, env);
    PathCodesNameThePath(FromBody(body), k.errorCode);
  }

  /** A `DatabaseOperationException` coded `DB_LOCKED` reaches the user as the fixed locked
      message. */
  lemma SpringLockedErrorIsFixed(operation: string, h: GlobalExceptionHandler.Heap, ex: nat, path: string,
                                 httpMethod: string, timestamp: string, env: GlobalExceptionHandler.Environment,
                                 statusText: JsValue)
    requires GlobalExceptionHandler.Closed(h) && ex in h
    ensures var k := GlobalExceptionHandler.DatabaseOperation("DB_LOCKED", operation);
      var body := SpringBody(k, h, ex, path, httpMethod, timestamp, env);
      FormatDatabaseError(Response(Num(500), statusText, Undefined, Some(FromBody(body)))) == LockedMessage
  {
    var k := GlobalExceptionHandler.DatabaseOperation("DB_LOCKED", operation);
    ExtraLookups(k, h, ex, path, httpMethod, timestamp, env);
  }
}
