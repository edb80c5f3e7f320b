/** The Spring backend's database exceptions and the helper that builds them: a failed data
    access is classified by the text of its message, and schema and migration failures carry
    fixed codes and the database path. */
module DatabaseExceptionHelper {
  import opened Wrappers
  import opened Text

  /** A `DataAccessException` as the helper sees it: its own message and, when Spring reports a
      most specific cause, that cause's message. A null message is `None`. */
  datatype DataAccessError = DataAccessError(message: Option<string>, mostSpecificCause: Option<Option<string>>)

  /** `DatabaseOperationException`: the error code, the operation that failed, the message taken
      from the wrapped exception, and the wrapped exception itself. */
  datatype OperationError = OperationError(errorCode: string, operation: string, message: Option<string>,
                                           cause: DataAccessError)

  /** `DatabaseInitializationException`. */
  datatype InitializationError = InitializationError(errorCode: string, databasePath: string, message: string)

  /** The message both checks inspect: the most specific cause's, else the exception's own. */
  function InspectedMessage(ex: DataAccessError): Option<string> {
    match ex.mostSpecificCause
    case None => ex.message
    case Some(m) => m
  }

  /** The lower-cased message names a busy or locked database. */
  predicate MentionsLock(lower: string) {
    Contains(lower, "database is locked") || Contains(lower, "sqlite_busy") || Contains(lower, "database locked")
  }

  /** The lower-cased message names a connection that could not be made or was lost. */
  predicate MentionsConnectionFailure(lower: string) {
    Contains(lower, "connection refused") || Contains(lower, "could not open")
    || Contains(lower, "unable to open database file") || Contains(lower, "no suitable driver")
    || Contains(lower, "connection is closed") || Contains(lower, "connection failed")
  }

  /** `isDatabaseLocked`: a null message is never a lock. */
  predicate IsDatabaseLocked(ex: DataAccessError) {
    var m := InspectedMessage(ex);
    m.Some? && MentionsLock(ToLower(m.value))
  }

  /** `isConnectionFailed`: a null message is never a connection failure. */
  predicate IsConnectionFailed(ex: DataAccessError) {
    var m := InspectedMessage(ex);
    m.Some? && MentionsConnectionFailure(ToLower(m.value))
  }

  const ConnectionFailedCode := "DB_CONNECTION_FAILED"
  const LockedCode := "DB_LOCKED"
  const SchemaInvalidCode := "DB_SCHEMA_INVALID"
  const MigrationFailedCode := "DB_MIGRATION_FAILED"

  /** `wrapOperation`: a connection failure is reported before a lock, and only a message that
      is neither keeps the caller's code. The operation and the wrapped exception are kept, and
      the message is the wrapped exception's. */
  function WrapOperation(defaultCode: string, operation: string, ex: DataAccessError): (e: OperationError)
    ensures e.operation == operation && e.cause == ex && e.message == ex.message
    ensures e.errorCode in {ConnectionFailedCode, LockedCode, defaultCode}
    ensures e.errorCode == defaultCode <== !IsConnectionFailed(ex) && !IsDatabaseLocked(ex)
  {
    if IsConnectionFailed(ex) then OperationError(ConnectionFailedCode, operation, ex.message, ex)
    else if IsDatabaseLocked(ex) then OperationError(LockedCode, operation, ex.message, ex)
    else OperationError(defaultCode, operation, ex.message, ex)
  }

  /** `schemaInvalid`. */
  function SchemaInvalid(databasePath: string, message: string): (e: InitializationError)
    ensures e.errorCode == SchemaInvalidCode && e.databasePath == databasePath && e.message == message
  {
    InitializationError(SchemaInvalidCode, databasePath, message)
  }

  /** `migrationFailed`. */
  function MigrationFailed(databasePath: string, message: string): (e: InitializationError)
    ensures e.errorCode == MigrationFailedCode && e.databasePath == databasePath && e.message == message
  {
    InitializationError(MigrationFailedCode, databasePath, message)
  }

  /** A message that names both a connection failure and a lock is reported as a connection
      failure; one that names only a lock is reported as a lock. */
  lemma ClassificationPriority(defaultCode: string, operation: string, ex: DataAccessError)
    ensures IsConnectionFailed(ex) ==> WrapOperation(defaultCode, operation, ex).errorCode == ConnectionFailedCode
    ensures !IsConnectionFailed(ex) && IsDatabaseLocked(ex) ==>
      WrapOperation(defaultCode, operation, ex).errorCode == LockedCode
  {
  }

  /** An exception whose inspected message is null keeps the caller's code. */
  lemma NullMessageKeepsDefault(defaultCode: string, operation: string, ex: DataAccessError)
    requires InspectedMessage(ex) == None
    ensures WrapOperation(defaultCode, operation, ex).errorCode == defaultCode
  {
  }

  /** The classification depends only on the inspected message and ignores case: two exceptions
      whose inspected messages are equal once lower-cased get the same code. */
  lemma ClassificationIgnoresCase(defaultCode: string, operation: string, a: DataAccessError, b: DataAccessError)
    requires InspectedMessage(a).Some? && InspectedMessage(b).Some?
    requires ToLower(InspectedMessage(a).value) == ToLower(InspectedMessage(b).value)
    ensures WrapOperation(defaultCode, operation, a).errorCode == WrapOperation(defaultCode, operation, b).errorCode
  {
  }

  /** When the exception has a most specific cause, the exception's own message plays no part
      in the code. */
  lemma CauseMessageDecides(defaultCode: string, operation: string, m: Option<string>, own1: Option<string>,
                            own2: Option<string>)
    ensures WrapOperation(defaultCode, operation, DataAccessError(own1, Some(m))).errorCode
         == WrapOperation(defaultCode, operation, DataAccessError(own2, Some(m))).errorCode
  {
  }

  /** Schema and migration failures never share a code with each other or with the codes the
      classification adds. */
  lemma InitializationCodesAreDistinct(path: string, message: string)
    ensures SchemaInvalid(path, message).errorCode != MigrationFailed(path, message).errorCode
    ensures SchemaInvalid(path, message).errorCode !in {ConnectionFailedCode, LockedCode}
    ensures MigrationFailed(path, message).errorCode !in {ConnectionFailedCode, LockedCode}
  {
    assert SchemaInvalidCode[3] != MigrationFailedCode[3];
    assert SchemaInvalidCode[3] != ConnectionFailedCode[3] && SchemaInvalidCode[3] != LockedCode[3];
    assert MigrationFailedCode[3] != ConnectionFailedCode[3] && MigrationFailedCode[3] != LockedCode[3];
  }
}
