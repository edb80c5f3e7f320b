/** The Spring backend's datasource configuration: a DATABASE_PATH wins and is checked against
    the file system, then a configured SQLite URL, then the first `database.sqlite3` found in
    the working directory or up to three levels above it, and last the configured URL or an
    in-memory H2 database. The choice is remembered in a flag that later picks the SQLite
    dialect. Path resolution and the file system are inputs. */
module DataSourceConfig {
  import opened Wrappers
  import opened Text
  import DatabaseExceptionHelper
  import Schema
  import TaskService

  /** `env.getProperty(name, default)`. */
  function PropertyOr(props: Schema.Properties, name: string, default: string): string {
    if name in props then props[name] else default
  }

  /** What the configuration sees of the file system, by absolute normalised path. */
  datatype FileSystem = FileSystem(present: set<string>, readable: set<string>, writable: set<string>)

  /** A `DriverManagerDataSource`: driver, URL and, for the fallback only, the credentials. */
  datatype DataSourceSpec = DataSourceSpec(driver: string, url: string, username: Option<string>, password: Option<string>)

  /** The chosen datasource and the value the configuration's flag takes. */
  datatype Selection = Selection(ds: DataSourceSpec, isSQLite: bool)

  const SqliteDriver := "org.sqlite.JDBC"
  /** The in-memory H2 URL used when nothing is configured, written as its scheme and the rest. */
  const H2Default := "jdbc:h2:" + "mem:springdb;DB_CLOSE_DELAY=-1;DB_CLOSE_ON_EXIT=FALSE"
  const SqliteDialect := "org.hibernate.community.dialect.SQLiteDialect"
  const FileNotFoundCode := "DB_FILE_NOT_FOUND"
  const PermissionDeniedCode := "DB_PERMISSION_DENIED"
  const ParentMissing := "Parent directory does not exist for database file"
  const ParentNotWritable := "Cannot create database file (parent directory not writable)"
  const NotReadableWritable := "SQLite database file is not readable/writable"

  /** The relative candidates, nearest first. */
  const Candidates: seq<string> :=
    ["database.sqlite3", "../database.sqlite3", "../../database.sqlite3", "../../../database.sqlite3"]

  /** A SQLite datasource for a file. */
  function SqliteSource(url: string): DataSourceSpec {
    DataSourceSpec(SqliteDriver, url, None, None)
  }

  /** The first path of `paths` that exists. */
  function FirstExisting(paths: seq<string>, present: set<string>): (r: Option<string>)
    ensures r.None? <==> forall j :: 0 <= j < |paths| ==> paths[j] !in present
    ensures r.Some? ==> exists k :: 0 <= k < |paths| && paths[k] == r.value && r.value in present
                                    && forall j :: 0 <= j < k ==> paths[j] !in present
  {
    if paths == [] then None
    else if paths[0] in present then Some(paths[0])
    else
      var rest := FirstExisting(paths[1..], present);
      assert forall j :: 1 <= j < |paths| ==> paths[j] == paths[1..][j - 1];
      if rest.Some? then
        var k :| 0 <= k < |paths[1..]| && paths[1..][k] == rest.value && rest.value in present
                 && forall j :: 0 <= j < k ==> paths[1..][j] !in present;
        assert paths[k + 1] == rest.value;
        rest
      else rest
  }

  /** The candidates as absolute paths. */
  function AbsoluteCandidates(absolute: string -> string): (r: seq<string>)
    ensures |r| == |Candidates| && forall k :: 0 <= k < |r| ==> r[k] == absolute(Candidates[k])
  {
    seq(|Candidates|, k requires 0 <= k < |Candidates| => absolute(Candidates[k]))
  }

  /** The checks on a DATABASE_PATH: a missing file needs an existing, writable parent (when it
      has one), an existing file must be readable and writable. */
  function CheckDatabasePath(dbPath: string, parent: Option<string>, fs: FileSystem)
    : Result<Selection, DatabaseExceptionHelper.InitializationError>
  {
    if dbPath !in fs.present then
      if parent.Some? && parent.value !in fs.present then
        Err(DatabaseExceptionHelper.InitializationError(FileNotFoundCode, dbPath, ParentMissing))
      else if parent.Some? && parent.value !in fs.writable then
        Err(DatabaseExceptionHelper.InitializationError(PermissionDeniedCode, dbPath, ParentNotWritable))
      else Ok(Selection(SqliteSource(Schema.SqlitePrefix + dbPath), true))
    else if dbPath !in fs.readable || dbPath !in fs.writable then
      Err(DatabaseExceptionHelper.InitializationError(PermissionDeniedCode, dbPath, NotReadableWritable))
    else Ok(Selection(SqliteSource(Schema.SqlitePrefix + dbPath), true))
  }

  /** The datasource chain as a value. */
  function Select(props: Schema.Properties, absolute: string -> string, parent: string -> Option<string>, fs: FileSystem)
    : (r: Result<Selection, DatabaseExceptionHelper.InitializationError>)
    ensures r.Ok? && r.value.isSQLite ==> r.value.ds.driver == SqliteDriver && r.value.ds.username.None?
    ensures r.Err? ==> r.error.errorCode == FileNotFoundCode || r.error.errorCode == PermissionDeniedCode
    ensures r.Err? && r.error.errorCode == FileNotFoundCode ==> Schema.HasDatabasePath(props)
  {
    if Schema.HasDatabasePath(props) then
      var dbPath := absolute(props[Schema.PathProperty]);
      CheckDatabasePath(dbPath, parent(dbPath), fs)
    else if Schema.UrlProperty in props && StartsWith(props[Schema.UrlProperty], Schema.SqlitePrefix) then
      Ok(Selection(SqliteSource(props[Schema.UrlProperty]), true))
    else FromCandidate(props, FirstExisting(AbsoluteCandidates(absolute), fs.present), fs)
  }

  /** The end of the chain: the candidate found, when it can be read and written, else the
      configured URL or the H2 default. */
  function FromCandidate(props: Schema.Properties, found: Option<string>, fs: FileSystem)
    : Result<Selection, DatabaseExceptionHelper.InitializationError>
  {
    match found
    case Some(abs) =>
      if abs !in fs.readable || abs !in fs.writable then
        Err(DatabaseExceptionHelper.InitializationError(PermissionDeniedCode, abs, NotReadableWritable))
      else Ok(Selection(SqliteSource(Schema.SqlitePrefix + abs), true))
    case None =>
      Ok(Selection(DataSourceSpec(PropertyOr(props, "spring.datasource.driver-class-name", "org.h2.Driver"),
                                  PropertyOr(props, Schema.UrlProperty, H2Default),
                                  Some(PropertyOr(props, "spring.datasource.username", "sa")),
                                  Some(PropertyOr(props, "spring.datasource.password", ""))),
                   false))
  }

  /** A non-blank DATABASE_PATH decides alone: the configured URL plays no part. */
  lemma DatabasePathWins(props: Schema.Properties, url: string, absolute: string -> string,
                         parent: string -> Option<string>, fs: FileSystem)
    requires Schema.HasDatabasePath(props)
    ensures Select(props, absolute, parent, fs) == Select(props[Schema.UrlProperty := url], absolute, parent, fs)
    ensures Select(props, absolute, parent, fs).Ok? ==>
      Select(props, absolute, parent, fs).value.ds.url == Schema.SqlitePrefix + absolute(props[Schema.PathProperty])
  {
    var q := props[Schema.UrlProperty := url];
    assert Schema.PathProperty != Schema.UrlProperty;
    assert Schema.HasDatabasePath(q) && q[Schema.PathProperty] == props[Schema.PathProperty];
  }

  /** How a DATABASE_PATH fails: a missing file in a missing directory is DB_FILE_NOT_FOUND; a
      missing file in a directory that cannot be written, or a file that cannot be both read
      and written, is DB_PERMISSION_DENIED; every error names the absolute path. */
  lemma DatabasePathFailures(dbPath: string, parent: Option<string>, fs: FileSystem)
    ensures var r := CheckDatabasePath(dbPath, parent, fs);
      (r.Err? ==> r.error.databasePath == dbPath)
      && (r.Err? && r.error.errorCode == FileNotFoundCode <==>
            dbPath !in fs.present && parent.Some? && parent.value !in fs.present)
      && (r.Err? && r.error.errorCode == PermissionDeniedCode <==>
            (dbPath !in fs.present && parent.Some? && parent.value in fs.present && parent.value !in fs.writable)
            || (dbPath in fs.present && (dbPath !in fs.readable || dbPath !in fs.writable)))
      && (r.Ok? ==> r.value == Selection(SqliteSource(Schema.SqlitePrefix + dbPath), true))
  {
    CodesDiffer();
    if dbPath !in fs.present {
      if parent.Some? && parent.value !in fs.present {
      } else if parent.Some? && parent.value !in fs.writable {
      } else {
      }
    } else if dbPath !in fs.readable || dbPath !in fs.writable {
    } else {
    }
  }

  lemma CodesDiffer()
    ensures FileNotFoundCode != PermissionDeniedCode
  {
    assert FileNotFoundCode[3] != PermissionDeniedCode[3];
  }

  /** Without a DATABASE_PATH a configured SQLite URL is used as it is. */
  lemma SqliteUrlIsUsedVerbatim(props: Schema.Properties, absolute: string -> string,
                                parent: string -> Option<string>, fs: FileSystem)
    requires !Schema.HasDatabasePath(props) && Schema.IsSQLiteUrl(props)
    ensures Select(props, absolute, parent, fs) == Ok(Selection(SqliteSource(props[Schema.UrlProperty]), true))
  {
  }

  /** With neither, the nearest existing `database.sqlite3` is used, and when none exists the
      configured URL or the H2 default, with the SQLite flag off. */
  lemma CandidatesThenFallback(props: Schema.Properties, absolute: string -> string,
                               parent: string -> Option<string>, fs: FileSystem)
    requires !Schema.HasDatabasePath(props) && !Schema.IsSQLiteUrl(props)
    ensures var r := Select(props, absolute, parent, fs);
      (forall k :: 0 <= k < |Candidates| ==> absolute(Candidates[k]) !in fs.present) ==>
        r.Ok? && !r.value.isSQLite
        && r.value.ds.url == (if Schema.UrlProperty in props then props[Schema.UrlProperty] else H2Default)
    ensures var r := Select(props, absolute, parent, fs);
      forall k :: 0 <= k < |Candidates| && absolute(Candidates[k]) in fs.present
                  && (forall j :: 0 <= j < k ==> absolute(Candidates[j]) !in fs.present) ==>
        var abs := absolute(Candidates[k]);
        (r.Ok? <==> abs in fs.readable && abs in fs.writable)
        && (r.Ok? ==> r.value == Selection(SqliteSource(Schema.SqlitePrefix + abs), true))
  {
    var paths := AbsoluteCandidates(absolute);
    forall k | 0 <= k < |Candidates| && absolute(Candidates[k]) in fs.present
               && (forall j :: 0 <= j < k ==> absolute(Candidates[j]) !in fs.present)
      ensures FirstExisting(paths, fs.present) == Some(absolute(Candidates[k]))
    {
      var r := FirstExisting(paths, fs.present);
      assert paths[k] in fs.present;
      var m :| 0 <= m < |paths| && paths[m] == r.value && r.value in fs.present
               && forall j :: 0 <= j < m ==> paths[j] !in fs.present;
      assert !(m < k) && !(k < m);
    }
  }

  /** The SQLite flag is on exactly when the datasource's URL is a SQLite URL. */
  lemma FlagMatchesUrl(props: Schema.Properties, absolute: string -> string,
                       parent: string -> Option<string>, fs: FileSystem)
    requires Select(props, absolute, parent, fs).Ok?
    ensures var sel := Select(props, absolute, parent, fs).value;
      sel.isSQLite <==> StartsWith(sel.ds.url, Schema.SqlitePrefix)
  {
    assert !StartsWith(H2Default, Schema.SqlitePrefix) by {
      assert H2Default[5] == "jdbc:h2:"[5] == 'h';
    }
    assert (Schema.SqlitePrefix + "")[..|Schema.SqlitePrefix|] == Schema.SqlitePrefix;
  }

  /** Every datasource the task service would call SQLite is one. */
  lemma TaskServiceSqliteIsSqlite(props: Schema.Properties, absolute: string -> string,
                                  parent: string -> Option<string>, fs: FileSystem)
    requires Select(props, absolute, parent, fs).Ok?
    ensures TaskService.IsSQLiteDatabase(props) ==> Select(props, absolute, parent, fs).value.isSQLite
  {
  }

  /** The converse fails: a `database.sqlite3` found in the working directory gives a SQLite
      datasource, while the task service, which sees no DATABASE_PATH and no SQLite URL, treats
      schema failures as it does for other databases. */
  lemma FoundFileIsSqliteOnlyToTheDataSource()
    ensures var here := FileSystem({"/app/database.sqlite3"}, {"/app/database.sqlite3"}, {"/app/database.sqlite3"});
      var sel := Select(map[], p => "/app/" + p, p => None, here);
      !TaskService.IsSQLiteDatabase(map[]) && sel.Ok? && sel.value.isSQLite
  {
    var abs := (p: string) => "/app/" + p;
    var here := FileSystem({"/app/database.sqlite3"}, {"/app/database.sqlite3"}, {"/app/database.sqlite3"});
    NothingConfiguredIsNotSqlite();
    assert abs(Candidates[0]) == "/app/database.sqlite3";
    NearestCandidateFound(map[], abs, p => None, here);
  }

  lemma NothingConfiguredIsNotSqlite()
    ensures !Schema.HasDatabasePath(map[]) && !Schema.IsSQLiteUrl(map[])
    ensures !TaskService.IsSQLiteDatabase(map[])
  {
    assert Schema.PropertyOr(map[], Schema.UrlProperty) == "";
  }

  /** Without a DATABASE_PATH or a SQLite URL, a `database.sqlite3` in the working directory that
      can be read and written is the datasource. */
  lemma NearestCandidateFound(props: Schema.Properties, absolute: string -> string,
                              parent: string -> Option<string>, fs: FileSystem)
    requires !Schema.HasDatabasePath(props) && !Schema.IsSQLiteUrl(props)
    requires var abs := absolute(Candidates[0]); abs in fs.present && abs in fs.readable && abs in fs.writable
    ensures Select(props, absolute, parent, fs)
      == Ok(Selection(SqliteSource(Schema.SqlitePrefix + absolute(Candidates[0])), true))
  {
    FirstExistingAt(AbsoluteCandidates(absolute), fs.present, 0);
  }

  /** The configuration bean and its flag, which starts off. */
  class DataSourceConfiguration {
    var isSQLite: bool

    constructor()
      ensures !isSQLite
    {
      isSQLite := false;
    }

    /** `dataSource`. The flag is set when a datasource is returned and left alone when the
        configuration throws. */
    method DataSource(props: Schema.Properties, absolute: string -> string, parent: string -> Option<string>,
                      fs: FileSystem)
      returns (r: Result<DataSourceSpec, DatabaseExceptionHelper.InitializationError>)
      modifies this
      ensures var sel := Select(props, absolute, parent, fs);
        (sel.Ok? ==> r == Ok(sel.value.ds) && isSQLite == sel.value.isSQLite)
        && (sel.Err? ==> r == Err(sel.error) && isSQLite == old(isSQLite))
    {
      ghost var sel := Select(props, absolute, parent, fs);
      if Schema.PathProperty in props && !IsBlank(props[Schema.PathProperty]) {
        var dbPath := absolute(props[Schema.PathProperty]);
        assert sel == CheckDatabasePath(dbPath, parent(dbPath), fs);
        if dbPath !in fs.present {
          var parentDir := parent(dbPath);
          if parentDir.Some? && parentDir.value !in fs.present {
            return Err(DatabaseExceptionHelper.InitializationError(FileNotFoundCode, dbPath, ParentMissing));
          }
          if parentDir.Some? && parentDir.value !in fs.writable {
            return Err(DatabaseExceptionHelper.InitializationError(PermissionDeniedCode, dbPath, ParentNotWritable));
          }
        } else {
          if dbPath !in fs.readable || dbPath !in fs.writable {
            return Err(DatabaseExceptionHelper.InitializationError(PermissionDeniedCode, dbPath, NotReadableWritable));
          }
        }
        isSQLite := true;
        return Ok(SqliteSource(Schema.SqlitePrefix + dbPath));
      }

      assert !Schema.HasDatabasePath(props);
      if Schema.UrlProperty in props && StartsWith(props[Schema.UrlProperty], Schema.SqlitePrefix) {
        assert sel == Ok(Selection(SqliteSource(props[Schema.UrlProperty]), true));
        isSQLite := true;
        return Ok(SqliteSource(props[Schema.UrlProperty]));
      }

      var found := FindCandidate(absolute, fs);
      assert sel == FromCandidate(props, found, fs);
      if found.Some? {
        var abs := found.value;
        if abs !in fs.readable || abs !in fs.writable {
          return Err(DatabaseExceptionHelper.InitializationError(PermissionDeniedCode, abs, NotReadableWritable));
        }
        isSQLite := true;
        return Ok(SqliteSource(Schema.SqlitePrefix + abs));
      }

      isSQLite := false;
      var fallbackUrl := if Schema.UrlProperty in props then props[Schema.UrlProperty] else H2Default;
      r := Ok(DataSourceSpec(PropertyOr(props, "spring.datasource.driver-class-name", "org.h2.Driver"), fallbackUrl,
                             Some(PropertyOr(props, "spring.datasource.username", "sa")),
                             Some(PropertyOr(props, "spring.datasource.password", ""))));
    }

    /** `jpaVendorAdapter`'s database platform: the SQLite dialect exactly when the flag is on. */
    function DatabasePlatform(): (platform: Option<string>)
      reads this
      ensures platform.Some? <==> isSQLite
      ensures platform.Some? ==> platform.value == SqliteDialect
    {
      if isSQLite then Some(SqliteDialect) else None
    }
  }

  /** The candidate loop of `dataSource`: the first candidate, made absolute, that exists. */
  method FindCandidate(absolute: string -> string, fs: FileSystem) returns (found: Option<string>)
    ensures found == FirstExisting(AbsoluteCandidates(absolute), fs.present)
  {
    var paths := AbsoluteCandidates(absolute);
    var i := 0;
    while i < |Candidates|
      invariant 0 <= i <= |Candidates|
      invariant forall j :: 0 <= j < i ==> paths[j] !in fs.present
    {
      var abs := absolute(Candidates[i]);
      if abs in fs.present {
        FirstExistingAt(paths, fs.present, i);
        return Some(abs);
      }
      i := i + 1;
    }
    found := None;
  }

  /** The first existing path is the one at `i` when none before it exists. */
  lemma FirstExistingAt(paths: seq<string>, present: set<string>, i: nat)
    requires i < |paths| && paths[i] in present
    requires forall j :: 0 <= j < i ==> paths[j] !in present
    ensures FirstExisting(paths, present) == Some(paths[i])
  {
    var r := FirstExisting(paths, present);
    var m :| 0 <= m < |paths| && paths[m] == r.value && r.value in present
             && forall j :: 0 <= j < m ==> paths[j] !in present;
    assert !(m < i) && !(i < m);
  }
}
