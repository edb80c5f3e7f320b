/** The Spring backend's start-up schema bean: it learns from the configured datasource URL
    whether the database is SQLite, makes sure the `tasks` table exists, finds which timestamp
    columns the table has (camelCase or snake_case, in any letter case) and adds a missing one.
    SQLite failures become initialization errors that carry the database path; other databases
    fall back quietly. The database's answers are inputs. */
module Schema {
  import opened Wrappers
  import opened Text
  import DatabaseExceptionHelper

  /** Spring's `Environment` as the bean reads it: property name to value. */
  type Properties = map<string, string>

  const UrlProperty := "spring.datasource.url"
  const PathProperty := "DATABASE_PATH"
  const SqlitePrefix := "jdbc:sqlite:"

  /** `env.getProperty(name, "")`. */
  function PropertyOr(props: Properties, name: string): string {
    if name in props then props[name] else ""
  }

  /** The bean's own test: the configured URL starts with `jdbc:sqlite:`. */
  predicate IsSQLiteUrl(props: Properties) {
    StartsWith(PropertyOr(props, UrlProperty), SqlitePrefix)
  }

  /** A DATABASE_PATH property that is present and not blank. */
  predicate HasDatabasePath(props: Properties) {
    PathProperty in props && !IsBlank(props[PathProperty])
  }

  /** `resolveDatabasePath`, the path reported in initialization errors: a non-blank
      DATABASE_PATH, else the file part of a SQLite URL, else "unknown". */
  function ResolveDatabasePath(props: Properties): (path: string)
    ensures HasDatabasePath(props) ==> path == props[PathProperty]
    ensures !HasDatabasePath(props) && IsSQLiteUrl(props) ==> SqlitePrefix + path == PropertyOr(props, UrlProperty)
    ensures !HasDatabasePath(props) && !IsSQLiteUrl(props) ==> path == "unknown"
  {
    if HasDatabasePath(props) then props[PathProperty]
    else
      var url := PropertyOr(props, UrlProperty);
      if StartsWith(url, SqlitePrefix) then
        assert url == url[..|SqlitePrefix|] + url[|SqlitePrefix|..];
        url[|SqlitePrefix|..]
      else "unknown"
  }

  /** The path of a SQLite URL is recovered when no DATABASE_PATH overrides it. */
  lemma ResolveDatabasePathOfSqliteUrl(props: Properties, file: string)
    requires !HasDatabasePath(props)
    requires UrlProperty in props && props[UrlProperty] == SqlitePrefix + file
    ensures ResolveDatabasePath(props) == file
  {
    assert (SqlitePrefix + file)[..|SqlitePrefix|] == SqlitePrefix;
  }

  // ---------------------------------------------------------------- timestamp columns

  /** The two timestamp columns and their spellings. */
  datatype Timestamp = Created | Updated {
    /** The camelCase name, which is also the name of a column the bean adds. */
    function Camel(): string {
      match this
      case Created => "createdAt"
      case Updated => "updatedAt"
    }
    /** The camelCase name in lower case, as it is looked up. */
    function CamelLower(): string {
      match this
      case Created => "createdat"
      case Updated => "updatedat"
    }
    function Snake(): string {
      match this
      case Created => "created_at"
      case Updated => "updated_at"
    }
  }

  /** The looked-up spellings are the lower-case forms of the two names. */
  lemma LookupNamesAreLowerCase(t: Timestamp)
    ensures ToLower(t.Camel()) == t.CamelLower()
    ensures ToLower(t.Snake()) == t.Snake()
  {
  }

  /** The columns found or added; `None` is a column the table lacks. */
  datatype Columns = Columns(createdAt: Option<string>, updatedAt: Option<string>) {
    function Get(t: Timestamp): Option<string> {
      match t
      case Created => createdAt
      case Updated => updatedAt
    }
  }

  /** The names of the rows of `PRAGMA table_info(tasks)`, lower-cased; a row whose name is
      null (`None`) is skipped. */
  function NameSet(names: seq<Option<string>>): (r: set<string>)
    ensures forall x :: x in r <==> exists i :: 0 <= i < |names| && names[i].Some? && ToLower(names[i].value) == x
  {
    set i | 0 <= i < |names| && names[i].Some? :: ToLower(names[i].value)
  }

  /** The column used for `t`: the camelCase one if the table has it in any letter case, else the
      snake_case one, else none. */
  function DetectColumn(names: set<string>, t: Timestamp): (c: Option<string>)
    ensures c == Some(t.Camel()) <==> t.CamelLower() in names
    ensures c == Some(t.Snake()) <==> t.CamelLower() !in names && t.Snake() in names
    ensures c == None <==> t.CamelLower() !in names && t.Snake() !in names
  {
    if t.CamelLower() in names then Some(t.Camel())
    else if t.Snake() in names then Some(t.Snake())
    else None
  }

  /** What the database answers while the bean starts. `columns` is `None` when the column query
      fails; an `add…Fails` flag says whether the ALTER TABLE for that column would fail. */
  datatype SchemaDb = SchemaDb(createFails: bool, columns: Option<seq<Option<string>>>,
                               addCreatedFails: bool, addUpdatedFails: bool)
  {
    function AddFails(t: Timestamp): bool {
      match t
      case Created => addCreatedFails
      case Updated => addUpdatedFails
    }
  }

  /** How start-up fails: the CREATE TABLE exception passed on unchanged, or an initialization
      error built by the helper. */
  datatype Failure = Propagated | Initialization(error: DatabaseExceptionHelper.InitializationError)

  /** The column kept for `t` once a missing one has been added: a failed ALTER is an error on
      SQLite and leaves the column absent elsewhere. */
  function AddMissing(isSQLite: bool, path: string, t: Timestamp, found: Option<string>, addFails: bool)
    : (r: Result<Option<string>, DatabaseExceptionHelper.InitializationError>)
    ensures found.Some? ==> r == Ok(found)
    ensures found.None? && !addFails ==> r == Ok(Some(t.Camel()))
    ensures found.None? && addFails && !isSQLite ==> r == Ok(None)
    ensures r.Err? <==> found.None? && addFails && isSQLite
    ensures r.Err? ==> r.error == DatabaseExceptionHelper.MigrationFailed(path, "Failed to add " + t.Camel() + " column")
  {
    if found.Some? then Ok(found)
    else if !addFails then Ok(Some(t.Camel()))
    else if isSQLite then Err(DatabaseExceptionHelper.MigrationFailed(path, "Failed to add " + t.Camel() + " column"))
    else Ok(None)
  }

  /** The whole detection, shared by this bean and the task service: create the table, read its
      columns, choose and add. `path` is the path reported by initialization errors. */
  function Detect(isSQLite: bool, path: string, db: SchemaDb): (r: Result<Columns, Failure>)
    ensures !db.createFails && db.columns.Some? && Created.CamelLower() in NameSet(db.columns.value)
            && Updated.CamelLower() in NameSet(db.columns.value) ==>
      r == Ok(Columns(Some("createdAt"), Some("updatedAt")))
    ensures r.Err? && r.error.Propagated? ==> db.createFails && !isSQLite
  {
    if db.createFails then
      if isSQLite then Err(Initialization(DatabaseExceptionHelper.SchemaInvalid(path, "Failed to initialize SQLite schema")))
      else Err(Propagated)
    else if db.columns.None? then
      if isSQLite then Err(Initialization(DatabaseExceptionHelper.SchemaInvalid(path, "Failed to read SQLite schema information")))
      else Ok(Columns(Some("createdAt"), Some("updatedAt")))
    else
      var names := NameSet(db.columns.value);
      match AddMissing(isSQLite, path, Created, DetectColumn(names, Created), db.addCreatedFails)
      case Err(e) => Err(Initialization(e))
      case Ok(created) =>
        match AddMissing(isSQLite, path, Updated, DetectColumn(names, Updated), db.addUpdatedFails)
        case Err(e) => Err(Initialization(e))
        case Ok(updated) => Ok(Columns(created, updated))
  }

  /** A table holding a timestamp in both spellings keeps the camelCase one and adds nothing. */
  lemma CamelPreferred(isSQLite: bool, path: string, db: SchemaDb, t: Timestamp)
    requires !db.createFails && db.columns.Some?
    requires t.CamelLower() in NameSet(db.columns.value)
    requires Detect(isSQLite, path, db).Ok?
    ensures Detect(isSQLite, path, db).value.Get(t) == Some(t.Camel())
  {
  }

  /** A column the table lacks in both spellings is added under its camelCase name when the
      ALTER succeeds; when it fails, SQLite stops with DB_MIGRATION_FAILED and another database
      goes on without the column. */
  lemma MissingColumnIsAdded(isSQLite: bool, path: string, db: SchemaDb, t: Timestamp)
    requires !db.createFails && db.columns.Some?
    requires DetectColumn(NameSet(db.columns.value), t) == None
    ensures var r := Detect(isSQLite, path, db);
      (!db.AddFails(t) && r.Ok? ==> r.value.Get(t) == Some(t.Camel()))
      && (db.AddFails(t) && !isSQLite ==> r.Ok? && r.value.Get(t) == None)
      && (db.AddFails(t) && isSQLite ==> r.Err? && r.error.Initialization?
                                         && r.error.error.errorCode == DatabaseExceptionHelper.MigrationFailedCode)
  {
  }

  /** Outside SQLite only the CREATE TABLE can fail start-up, and then with its own exception. */
  lemma OtherDatabasesOnlyFailOnCreate(path: string, db: SchemaDb)
    ensures Detect(false, path, db).Err? <==> db.createFails
    ensures Detect(false, path, db).Err? ==> Detect(false, path, db).error == Propagated
  {
  }

  /** On SQLite every failure is an initialization error with the schema or migration code and
      the given path, and a successful start always has both columns. */
  lemma SqliteFailuresCarryPath(path: string, db: SchemaDb)
    ensures var r := Detect(true, path, db);
      (r.Err? ==> r.error.Initialization? && r.error.error.databasePath == path
                  && r.error.error.errorCode in {DatabaseExceptionHelper.SchemaInvalidCode,
                                                 DatabaseExceptionHelper.MigrationFailedCode})
      && (r.Ok? ==> r.value.createdAt.Some? && r.value.updatedAt.Some?)
  {
  }

  /** Every column the detection keeps is one of the two spellings, and a snake_case one is only
      kept when the table has it. */
  lemma ColumnsAreKnownNames(isSQLite: bool, path: string, db: SchemaDb, t: Timestamp)
    requires Detect(isSQLite, path, db).Ok?
    ensures var c := Detect(isSQLite, path, db).value.Get(t);
      c == None || c == Some(t.Camel()) || c == Some(t.Snake())
    ensures Detect(isSQLite, path, db).value.Get(t) == Some(t.Snake()) ==>
      db.columns.Some? && exists i :: 0 <= i < |db.columns.value| && db.columns.value[i].Some?
                                      && ToLower(db.columns.value[i].value) == t.Snake()
  {
  }

  // ---------------------------------------------------------------- the bean

  /** The `Schema` bean: its fields start null and false and are set by `afterPropertiesSet`. */
  class SchemaBean {
    var createdAtColumn: Option<string>
    var updatedAtColumn: Option<string>
    var isSQLite: bool

    constructor()
      ensures createdAtColumn == None && updatedAtColumn == None && !isSQLite
    {
      createdAtColumn, updatedAtColumn, isSQLite := None, None, false;
    }

    /** `afterPropertiesSet`. `isSQLite` is always set first; the columns are set only when
        start-up succeeds, and stay as they were when it throws. */
    method AfterPropertiesSet(props: Properties, db: SchemaDb) returns (failure: Option<Failure>)
      modifies this
      ensures isSQLite == IsSQLiteUrl(props)
      ensures var r := Detect(IsSQLiteUrl(props), ResolveDatabasePath(props), db);
        (r.Ok? <==> failure == None)
        && (r.Ok? ==> createdAtColumn == r.value.createdAt && updatedAtColumn == r.value.updatedAt)
        && (r.Err? ==> failure == Some(r.error)
                       && createdAtColumn == old(createdAtColumn) && updatedAtColumn == old(updatedAtColumn))
    {
      isSQLite := StartsWith(PropertyOr(props, UrlProperty), SqlitePrefix);
      failure := EnsureTasksTableExists(props, db);
      if failure.None? {
        failure := DetectAndMigrateColumns(props, db);
      }
    }

    /** `ensureTasksTableExists`. */
    method EnsureTasksTableExists(props: Properties, db: SchemaDb) returns (failure: Option<Failure>)
      ensures !db.createFails <==> failure == None
      ensures db.createFails ==> Some(failure.value) == Some(Detect(isSQLite, ResolveDatabasePath(props), db).error)
    {
      failure := None;
      if db.createFails {
        if isSQLite {
          failure := Some(Initialization(DatabaseExceptionHelper.SchemaInvalid(ResolveDatabasePath(props),
                                                                                "Failed to initialize SQLite schema")));
        } else {
          failure := Some(Propagated);
        }
      }
    }

    /** `detectAndMigrateColumns`, run once the table exists. */
    method DetectAndMigrateColumns(props: Properties, db: SchemaDb) returns (failure: Option<Failure>)
      requires !db.createFails
      modifies this
      ensures isSQLite == old(isSQLite)
      ensures var r := Detect(isSQLite, ResolveDatabasePath(props), db);
        (r.Ok? <==> failure == None)
        && (r.Ok? ==> createdAtColumn == r.value.createdAt && updatedAtColumn == r.value.updatedAt)
        && (r.Err? ==> failure == Some(r.error)
                       && createdAtColumn == old(createdAtColumn) && updatedAtColumn == old(updatedAtColumn))
    {
      var path := ResolveDatabasePath(props);
      if db.columns.None? {
        if isSQLite {
          return Some(Initialization(DatabaseExceptionHelper.SchemaInvalid(path, "Failed to read SQLite schema information")));
        }
        createdAtColumn, updatedAtColumn := Some("createdAt"), Some("updatedAt");
        return None;
      }
      var names := NameSet(db.columns.value);
      var createdColumn := DetectColumn(names, Created);
      var updatedColumn := DetectColumn(names, Updated);
      if createdColumn == None {
        if !db.addCreatedFails {
          createdColumn := Some("createdAt");
        } else if isSQLite {
          return Some(Initialization(DatabaseExceptionHelper.MigrationFailed(path, "Failed to add " + Created.Camel() + " column")));
        }
      }
      if updatedColumn == None {
        if !db.addUpdatedFails {
          updatedColumn := Some("updatedAt");
        } else if isSQLite {
          return Some(Initialization(DatabaseExceptionHelper.MigrationFailed(path, "Failed to add " + Updated.Camel() + " column")));
        }
      }
      createdAtColumn, updatedAtColumn := createdColumn, updatedColumn;
      failure := None;
    }
  }
}
