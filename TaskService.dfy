/** The Spring backend's task service: it loads the table's timestamp columns once and keeps
    them, and builds the SQL of each task operation from them. The database is not modelled:
    the answers of each statement (rows, counts, failures) are inputs, and each operation
    reports the statements it sends. */
module TaskService {
  import opened Wrappers
  import opened Text
  import DatabaseExceptionHelper
  import Schema

  // ---------------------------------------------------------------- Java int

  const IntMin := -0x8000_0000
  const IntMax := 0x7fff_ffff

  /** The range of a Java `int`. */
  predicate IsInt(x: int) {
    IntMin <= x <= IntMax
  }

  /** Java `int` arithmetic: the result reduced into the `int` range modulo 2^32. */
  function Wrap32(x: int): (r: int)
    ensures IsInt(r)
    ensures IsInt(x) ==> r == x
    ensures (x - r) % 0x1_0000_0000 == 0
  {
    (x + 0x8000_0000) % 0x1_0000_0000 - 0x8000_0000
  }

  // ---------------------------------------------------------------- schema

  /** `isSQLiteDatabase`: a non-blank DATABASE_PATH alone makes the service treat the database as
      SQLite, unlike the schema bean, which looks only at the URL. */
  predicate IsSQLiteDatabase(props: Schema.Properties) {
    Schema.HasDatabasePath(props) || Schema.IsSQLiteUrl(props)
  }

  /** `loadSchema`, as a value: the shared detection with the service's idea of SQLite. */
  function Load(props: Schema.Properties, db: Schema.SchemaDb): Result<Schema.Columns, Schema.Failure> {
    Schema.Detect(IsSQLiteDatabase(props), Schema.ResolveDatabasePath(props), db)
  }

  /** What `schema()` yields: the cached columns, or a fresh load. */
  function CachedOrLoad(cached: Option<Schema.Columns>, props: Schema.Properties, db: Schema.SchemaDb)
    : Result<Schema.Columns, Schema.Failure>
  {
    if cached.Some? then Ok(cached.value) else Load(props, db)
  }

  /** The cache after `schema()`: kept when it was there, else the loaded columns when the load
      succeeded, else still empty. */
  function CacheAfter(cached: Option<Schema.Columns>, props: Schema.Properties, db: Schema.SchemaDb)
    : (c: Option<Schema.Columns>)
    ensures cached.Some? ==> c == cached
    ensures c.Some? <==> CachedOrLoad(cached, props, db).Ok?
    ensures c.Some? ==> c.value == CachedOrLoad(cached, props, db).value
  {
    if cached.Some? then cached
    else match Load(props, db)
      case Ok(cols) => Some(cols)
      case Err(_) => None
  }

  /** Once a load has succeeded, every later `schema()` yields the same columns, whatever the
      database now answers. */
  lemma CacheIsSticky(cached: Option<Schema.Columns>, props: Schema.Properties,
                      db: Schema.SchemaDb, later: Schema.SchemaDb)
    requires CachedOrLoad(cached, props, db).Ok?
    ensures CachedOrLoad(CacheAfter(cached, props, db), props, later) == CachedOrLoad(cached, props, db)
    ensures CacheAfter(CacheAfter(cached, props, db), props, later) == CacheAfter(cached, props, db)
  {
  }

  /** Without a DATABASE_PATH the service and the schema bean reach the same columns and the
      same failures. */
  lemma ServiceAgreesWithBean(props: Schema.Properties, db: Schema.SchemaDb)
    requires !Schema.HasDatabasePath(props)
    ensures Load(props, db) == Schema.Detect(Schema.IsSQLiteUrl(props), Schema.ResolveDatabasePath(props), db)
  {
  }

  /** With a DATABASE_PATH and no SQLite URL they part ways: an ALTER TABLE that fails leaves the
      bean without a createdAt column, while the service stops with DB_MIGRATION_FAILED. */
  lemma DatabasePathMakesServiceStricter()
    ensures var props := map[Schema.PathProperty := "t.db"];
      var db := Schema.SchemaDb(false, Some([]), true, false);
      Schema.Detect(Schema.IsSQLiteUrl(props), Schema.ResolveDatabasePath(props), db)
        == Ok(Schema.Columns(None, Some("updatedAt")))
      && Load(props, db).Err?
      && Load(props, db).error == Schema.Initialization(
           DatabaseExceptionHelper.MigrationFailed("t.db", "Failed to add createdAt column"))
  {
    var props := map[Schema.PathProperty := "t.db"];
    assert !IsJavaWhitespace("t.db"[0]);
    assert Schema.HasDatabasePath(props);
    assert !Schema.IsSQLiteUrl(props) by {
      assert Schema.PropertyOr(props, Schema.UrlProperty) == "";
    }
    var names := Schema.NameSet([]);
    assert names == {};
  }

  /** The lower-cased names of the first `i` column rows, with a null name counted as "". */
  lemma NameSetSnoc(columns: seq<Option<string>>, i: nat)
    requires i < |columns|
    ensures Schema.NameSet(columns[..i + 1])
         == Schema.NameSet(columns[..i]) + (if columns[i].Some? then {ToLower(columns[i].value)} else {})
  {
    var a := columns[..i + 1];
    assert forall k :: 0 <= k < i ==> a[k] == columns[..i][k];
  }

  /** The column loop of `loadSchema`: four flags set by exact comparisons of the lower-cased
      names. It finds exactly the names the schema bean collects. */
  method ScanColumns(columns: seq<Option<string>>)
    returns (hasCreatedAt: bool, hasUpdatedAt: bool, hasCreatedAtSnake: bool, hasUpdatedAtSnake: bool)
    ensures hasCreatedAt <==> "createdat" in Schema.NameSet(columns)
    ensures hasUpdatedAt <==> "updatedat" in Schema.NameSet(columns)
    ensures hasCreatedAtSnake <==> "created_at" in Schema.NameSet(columns)
    ensures hasUpdatedAtSnake <==> "updated_at" in Schema.NameSet(columns)
  {
    hasCreatedAt, hasUpdatedAt, hasCreatedAtSnake, hasUpdatedAtSnake := false, false, false, false;
    var i := 0;
    while i < |columns|
      invariant 0 <= i <= |columns|
      invariant hasCreatedAt <==> "createdat" in Schema.NameSet(columns[..i])
      invariant hasUpdatedAt <==> "updatedat" in Schema.NameSet(columns[..i])
      invariant hasCreatedAtSnake <==> "created_at" in Schema.NameSet(columns[..i])
      invariant hasUpdatedAtSnake <==> "updated_at" in Schema.NameSet(columns[..i])
    {
      var name := if columns[i].None? then "" else columns[i].value;
      var lower := ToLower(name);
      NameSetSnoc(columns, i);
      if lower == "createdat" { hasCreatedAt := true; }
      if lower == "updatedat" { hasUpdatedAt := true; }
      if lower == "created_at" { hasCreatedAtSnake := true; }
      if lower == "updated_at" { hasUpdatedAtSnake := true; }
      i := i + 1;
    }
    assert columns[..i] == columns;
  }

  // ---------------------------------------------------------------- tasks and statements

  /** A task as the service handles it; every string field may be null. */
  datatype Task = Task(id: Option<string>, text: Option<string>, day: Option<string>, reminder: bool)

  /** A bound statement parameter. */
  datatype Param = PString(s: Option<string>) | PInt(n: int)

  /** A statement sent to the database. */
  datatype Statement = Statement(sql: string, params: seq<Param>)

  /** How a service call fails: a null task, a schema that could not be loaded, or a data-access
      failure wrapped by the exception helper. */
  datatype ServiceError =
    | IllegalArgument(message: string)
    | SchemaFailed(failure: Schema.Failure)
    | OperationFailed(error: DatabaseExceptionHelper.OperationError)

  /** Spring's `StringUtils.hasText`: not null and not only whitespace. */
  predicate HasText(s: Option<string>) {
    s.Some? && !IsBlank(s.value)
  }

  /** The task as stored: a missing or blank id is replaced by the generated one. */
  function WithId(t: Task, uuid: string): (r: Task)
    ensures r.text == t.text && r.day == t.day && r.reminder == t.reminder
    ensures HasText(t.id) ==> r.id == t.id
    ensures !HasText(t.id) ==> r.id == Some(uuid)
  {
    if HasText(t.id) then t else t.(id := Some(uuid))
  }

  /** The columns named by an INSERT: the four data columns, then each timestamp column the
      schema has. */
  function InsertColumns(s: Schema.Columns): seq<string> {
    ["id", "text", "day", "reminder"]
      + (if s.createdAt.Some? then [s.createdAt.value] else [])
      + (if s.updatedAt.Some? then [s.updatedAt.value] else [])
  }

  /** The values of an INSERT: a placeholder per data column, the database clock per timestamp. */
  function InsertValues(s: Schema.Columns): seq<string> {
    ["?", "?", "?", "?"]
      + (if s.createdAt.Some? then ["CURRENT_TIMESTAMP"] else [])
      + (if s.updatedAt.Some? then ["CURRENT_TIMESTAMP"] else [])
  }

  /** The INSERT names as many columns as it gives values, the first four bound to the task and
      the rest set by the database, and names a timestamp column exactly when the schema has it. */
  lemma InsertColumnsMatchValues(s: Schema.Columns)
    ensures |InsertColumns(s)| == |InsertValues(s)|
    ensures forall k :: 0 <= k < 4 ==> InsertValues(s)[k] == "?"
    ensures forall k :: 4 <= k < |InsertValues(s)| ==> InsertValues(s)[k] == "CURRENT_TIMESTAMP"
    ensures forall t: Schema.Timestamp :: s.Get(t).Some? ==> s.Get(t).value in InsertColumns(s)[4..]
    ensures |InsertColumns(s)| == 4 + (if s.createdAt.Some? then 1 else 0) + (if s.updatedAt.Some? then 1 else 0)
  {
    forall t: Schema.Timestamp | s.Get(t).Some? ensures s.Get(t).value in InsertColumns(s)[4..] {
      if t == Schema.Created {
        assert InsertColumns(s)[4] == s.createdAt.value;
      } else if s.createdAt.Some? {
        assert InsertColumns(s)[5] == s.updatedAt.value;
      } else {
        assert InsertColumns(s)[4] == s.updatedAt.value;
      }
    }
  }

  /** The INSERT of `create`. */
  function InsertStatement(t: Task, s: Schema.Columns): Statement {
    Statement("INSERT INTO tasks(" + Join(InsertColumns(s), ", ") + ") VALUES(" + Join(InsertValues(s), ", ") + ")",
              [PString(t.id), PString(t.text), PString(t.day), PInt(if t.reminder then 1 else 0)])
  }

  /** The column and value lists of `create`: each list starts with its four entries and gains
      one entry per timestamp column; the statement joins the entries with ", ". */
  method BuildInsert(s: Schema.Columns) returns (cols: seq<string>, vals: seq<string>)
    ensures cols == InsertColumns(s) && vals == InsertValues(s)
  {
    cols := ["id", "text", "day", "reminder"];
    vals := ["?", "?", "?", "?"];
    if s.createdAt.Some? {
      cols := cols + [s.createdAt.value];
      vals := vals + ["CURRENT_TIMESTAMP"];
    }
    if s.updatedAt.Some? {
      cols := cols + [s.updatedAt.value];
      vals := vals + ["CURRENT_TIMESTAMP"];
    }
  }

  // ---------------------------------------------------------------- paging

  /** The page asked for: a missing or non-positive page is the first. */
  function NormalizePage(page: Option<int>): (p: int)
    ensures p >= 1
    ensures page.Some? && page.value >= 1 ==> p == page.value
    ensures !(page.Some? && page.value >= 1) ==> p == 1
  {
    if page.None? || page.value < 1 then 1 else page.value
  }

  /** The page size asked for: a missing or non-positive limit is 10. */
  function NormalizeLimit(limit: Option<int>): (l: int)
    ensures l >= 1
    ensures limit.Some? && limit.value >= 1 ==> l == limit.value
    ensures !(limit.Some? && limit.value >= 1) ==> l == 10
  {
    if limit.None? || limit.value < 1 then 10 else limit.value
  }

  /** The rows skipped before page `p` of size `l`. */
  function Offset(p: int, l: int): (offset: int)
    requires p >= 1 && l >= 1
    ensures 0 <= offset && offset + l == p * l
  {
    (p - 1) * l
  }

  /** The offset as the source computes it, in `int` arithmetic. */
  function OffsetAsWritten(page: Option<int>, limit: Option<int>): int {
    Wrap32((NormalizePage(page) - 1) * NormalizeLimit(limit))
  }

  /** The `int` offset is right while the product fits in an `int`. */
  lemma OffsetAsWrittenWhileItFits(page: Option<int>, limit: Option<int>)
    requires (NormalizePage(page) - 1) * NormalizeLimit(limit) <= IntMax
    ensures OffsetAsWritten(page, limit) == Offset(NormalizePage(page), NormalizeLimit(limit))
  {
  }

  /** Page 214748366 of size 10 is a valid `int` request whose offset wraps to a negative number:
      the query asks for OFFSET -2147483646. */
  lemma OffsetAsWrittenGoesNegative()
    ensures IsInt(214748366) && IsInt(10)
    ensures OffsetAsWritten(Some(214748366), Some(10)) == -2147483646
    ensures Offset(NormalizePage(Some(214748366)), NormalizeLimit(Some(10))) == 2147483650
  {
  }

  /** The LIKE pattern of a search: none for a missing search or one that `trim` leaves empty,
      else the trimmed search between two `%`. */
  function SearchPattern(search: Option<string>): (pattern: Option<string>)
    ensures pattern.None? <==> search.None? || JavaTrim(search.value) == ""
    ensures pattern.Some? ==> pattern.value == "%" + JavaTrim(search.value) + "%"
  {
    if search.Some? && JavaTrim(search.value) != "" then Some("%" + JavaTrim(search.value) + "%") else None
  }

  /** A search made only of characters `trim` removes is no search. */
  lemma TrimmedAwaySearchIsIgnored(search: string)
    requires forall i :: 0 <= i < |search| ==> IsJavaTrimmed(search[i])
    ensures SearchPattern(Some(search)) == None
  {
    TrimEmptyIff(search, IsJavaTrimmed);
  }

  function WhereClause(pattern: Option<string>): string {
    if pattern.Some? then " WHERE text LIKE ? " else ""
  }

  /** The sort column: createdAt's column, else updatedAt's, else the id. */
  function OrderColumn(s: Schema.Columns): (c: string)
    ensures s.createdAt.Some? ==> c == s.createdAt.value
    ensures s.createdAt.None? && s.updatedAt.Some? ==> c == s.updatedAt.value
    ensures s.createdAt.None? && s.updatedAt.None? ==> c == "id"
  {
    if s.createdAt.Some? then s.createdAt.value
    else if s.updatedAt.Some? then s.updatedAt.value
    else "id"
  }

  function CountStatement(pattern: Option<string>): Statement {
    Statement("SELECT COUNT(*) FROM tasks" + WhereClause(pattern),
              if pattern.Some? then [PString(pattern)] else [])
  }

  function RowsStatement(pattern: Option<string>, s: Schema.Columns, l: int, offset: int): Statement {
    Statement("SELECT id, text, day, reminder FROM tasks" + WhereClause(pattern) + " ORDER BY " + OrderColumn(s)
              + " DESC LIMIT ? OFFSET ?",
              (if pattern.Some? then [PString(pattern)] else []) + [PInt(l), PInt(offset)])
  }

  /** Both queries filter by the same pattern exactly when there is one, and the row query binds
      the page size and a non-negative offset after it. */
  lemma QueriesShareTheFilter(search: Option<string>, s: Schema.Columns, page: Option<int>, limit: Option<int>)
    ensures var pattern := SearchPattern(search);
      var l := NormalizeLimit(limit);
      var offset := Offset(NormalizePage(page), l);
      var count := CountStatement(pattern);
      var rows := RowsStatement(pattern, s, l, offset);
      (pattern.Some? <==> |count.params| == 1)
      && (pattern.Some? ==> count.params[0] == rows.params[0] == PString(pattern))
      && rows.params[|rows.params| - 2..] == [PInt(l), PInt(offset)]
      && offset >= 0
  {
  }

  /** A failure of either `findAll` query. */
  function QueryFailed(e: DatabaseExceptionHelper.DataAccessError): ServiceError {
    OperationFailed(DatabaseExceptionHelper.WrapOperation("TASK_QUERY_FAILED", "findAll", e))
  }

  /** A page of results: the rows, the zero-based page index, the page size and the total. */
  datatype PageResult = PageResult(content: seq<Task>, pageIndex: int, size: int, total: int)

  /** The two queries of `findAll` and their outcome: the count, then the page of rows in
      descending order of the sort column; a failure of either stops there. */
  function PageQueries(p: int, l: int, pattern: Option<string>, s: Schema.Columns, total: int, rows: seq<Task>,
                       countFails: Option<DatabaseExceptionHelper.DataAccessError>,
                       rowsFail: Option<DatabaseExceptionHelper.DataAccessError>)
    : (out: (Result<PageResult, ServiceError>, seq<Statement>))
    requires p >= 1 && l >= 1
    ensures out.1 != [] && out.1[0] == CountStatement(pattern)
    ensures out.0.Ok? <==> countFails.None? && rowsFail.None?
    ensures out.0.Ok? ==> out.0.value == PageResult(rows, p - 1, l, total)
    ensures countFails.None? <==> |out.1| == 2
    ensures countFails.None? ==> out.1[1] == RowsStatement(pattern, s, l, Offset(p, l))
  {
    if countFails.Some? then (Err(QueryFailed(countFails.value)), [CountStatement(pattern)])
    else
      var executed := [CountStatement(pattern), RowsStatement(pattern, s, l, Offset(p, l))];
      if rowsFail.Some? then (Err(QueryFailed(rowsFail.value)), executed)
      else (Ok(PageResult(rows, p - 1, l, total)), executed)
  }

  /** The query part of `findAll`, once page, limit, pattern and columns are known. */
  method RunPageQueries(p: int, l: int, pattern: Option<string>, s: Schema.Columns, total: int, rows: seq<Task>,
                        countFails: Option<DatabaseExceptionHelper.DataAccessError>,
                        rowsFail: Option<DatabaseExceptionHelper.DataAccessError>)
    returns (r: Result<PageResult, ServiceError>, executed: seq<Statement>)
    requires p >= 1 && l >= 1
    ensures (r, executed) == PageQueries(p, l, pattern, s, total, rows, countFails, rowsFail)
  {
    var offset := (p - 1) * l;
    var count := CountStatement(pattern);
    executed := [count];
    if countFails.Some? {
      return Err(QueryFailed(countFails.value)), executed;
    }
    var orderBy := if s.createdAt.Some? then s.createdAt.value
                   else if s.updatedAt.Some? then s.updatedAt.value
                   else "id";
    var select := Statement("SELECT id, text, day, reminder FROM tasks" + WhereClause(pattern) + " ORDER BY " + orderBy
                            + " DESC LIMIT ? OFFSET ?",
                            (if pattern.Some? then [PString(pattern)] else []) + [PInt(l), PInt(offset)]);
    assert orderBy == OrderColumn(s) && offset == Offset(p, l);
    assert select == RowsStatement(pattern, s, l, Offset(p, l));
    executed := [count, select];
    if rowsFail.Some? {
      return Err(QueryFailed(rowsFail.value)), executed;
    }
    r := Ok(PageResult(rows, p - 1, l, total));
  }

  /** `findOne`'s query. */
  function FindOneStatement(id: Option<string>): Statement {
    Statement("SELECT id, text, day, reminder FROM tasks WHERE id = ?", [PString(id)])
  }

  /** What `findOne` returns: the first row, if any, or its query's failure. */
  function FindOneOutcome(rows: seq<Task>, queryFails: Option<DatabaseExceptionHelper.DataAccessError>)
    : (r: Result<Option<Task>, ServiceError>)
    ensures r.Ok? <==> queryFails.None?
    ensures r.Ok? ==> (r.value.None? <==> rows == []) && (r.value.Some? ==> r.value.value == rows[0])
    ensures r.Err? ==> r.error.OperationFailed? && r.error.error.operation == "findOne"
  {
    if queryFails.Some? then
      Err(OperationFailed(DatabaseExceptionHelper.WrapOperation("TASK_QUERY_FAILED", "findOne", queryFails.value)))
    else Ok(if rows == [] then None else Some(rows[0]))
  }

  /** The SET clause of `update`: the updatedAt column is stamped when the schema has one. */
  function UpdateStatement(id: Option<string>, t: Task, s: Schema.Columns): Statement {
    var setUpdatedAt := if s.updatedAt.Some? then ", " + s.updatedAt.value + " = CURRENT_TIMESTAMP" else "";
    Statement("UPDATE tasks SET text = ?, day = ?, reminder = ?" + setUpdatedAt + " WHERE id = ?",
              [PString(t.text), PString(t.day), PInt(if t.reminder then 1 else 0), PString(id)])
  }

  /** The outcome of `update` once the columns are known: the UPDATE, then, when it changed a
      row, the re-read by `findOne`, whose failure keeps its own code rather than the update's. */
  function UpdateOutcome(id: Option<string>, t: Task, s: Schema.Columns, updated: int,
                         updateFails: Option<DatabaseExceptionHelper.DataAccessError>,
                         rows: seq<Task>, findFails: Option<DatabaseExceptionHelper.DataAccessError>)
    : (out: (Result<Option<Task>, ServiceError>, seq<Statement>))
    ensures out.1 != [] && out.1[0] == UpdateStatement(id, t, s)
    ensures updateFails.Some? ==>
      out.0.Err? && out.0.error.OperationFailed? && out.0.error.error.operation == "update" && |out.1| == 1
    ensures updateFails.None? && updated <= 0 ==> out.0 == Ok(None) && |out.1| == 1
    ensures updateFails.None? && updated > 0 ==> out.0 == FindOneOutcome(rows, findFails) && out.1[1..] == [FindOneStatement(id)]
  {
    var update := UpdateStatement(id, t, s);
    if updateFails.Some? then
      (Err(OperationFailed(DatabaseExceptionHelper.WrapOperation("TASK_UPDATE_FAILED", "update", updateFails.value))), [update])
    else if updated > 0 then (FindOneOutcome(rows, findFails), [update, FindOneStatement(id)])
    else (Ok(None), [update])
  }

  /** An update binds the task's text, day and reminder and the path's id, never the task's own
      id. */
  lemma UpdateWritesOnlyData(id: Option<string>, t: Task, s: Schema.Columns, otherId: Option<string>)
    ensures UpdateStatement(id, t, s) == UpdateStatement(id, t.(id := otherId), s)
    ensures UpdateStatement(id, t, s).params[3] == PString(id)
  {
  }

  // ---------------------------------------------------------------- the service

  /** The service and its one piece of state, the columns it loaded. */
  class TaskService {
    const props: Schema.Properties
    var schema: Option<Schema.Columns>

    constructor(props: Schema.Properties)
      ensures this.props == props && schema == None
    {
      this.props := props;
      schema := None;
    }

    /** `schema()`: the cached columns when there are some; otherwise a load, kept only when it
        succeeds, so a failed load is tried again on the next call. */
    method GetSchema(db: Schema.SchemaDb) returns (r: Result<Schema.Columns, Schema.Failure>)
      modifies this
      ensures r == CachedOrLoad(old(schema), props, db)
      ensures old(schema).Some? ==> schema == old(schema)
      ensures old(schema).None? ==> schema == (if r.Ok? then Some(r.value) else None)
      ensures schema == CacheAfter(old(schema), props, db)
    {
      if schema.Some? {
        return Ok(schema.value);
      }
      r := LoadSchema(db);
      if r.Ok? {
        schema := Some(r.value);
      }
    }

    /** `loadSchema`. */
    method LoadSchema(db: Schema.SchemaDb) returns (r: Result<Schema.Columns, Schema.Failure>)
      ensures r == Load(props, db)
    {
      var isSQLite := IsSQLiteDatabase(props);
      var path := Schema.ResolveDatabasePath(props);
      if db.createFails {
        if isSQLite {
          return Err(Schema.Initialization(DatabaseExceptionHelper.SchemaInvalid(path, "Failed to initialize SQLite schema")));
        }
        return Err(Schema.Propagated);
      }
      if db.columns.None? {
        if isSQLite {
          return Err(Schema.Initialization(DatabaseExceptionHelper.SchemaInvalid(path, "Failed to read SQLite schema information")));
        }
        return Ok(Schema.Columns(Some("createdAt"), Some("updatedAt")));
      }
      var hasCreatedAt, hasUpdatedAt, hasCreatedAtSnake, hasUpdatedAtSnake := ScanColumns(db.columns.value);
      var createdColumn := if hasCreatedAt then Some("createdAt") else if hasCreatedAtSnake then Some("created_at") else None;
      var updatedColumn := if hasUpdatedAt then Some("updatedAt") else if hasUpdatedAtSnake then Some("updated_at") else None;
      if createdColumn == None {
        if !db.addCreatedFails {
          createdColumn := Some("createdAt");
        } else if isSQLite {
          return Err(Schema.Initialization(DatabaseExceptionHelper.MigrationFailed(path, "Failed to add " + (Schema.Created).Camel() + " column")));
        }
      }
      if updatedColumn == None {
        if !db.addUpdatedFails {
          updatedColumn := Some("updatedAt");
        } else if isSQLite {
          return Err(Schema.Initialization(DatabaseExceptionHelper.MigrationFailed(path, "Failed to add " + (Schema.Updated).Camel() + " column")));
        }
      }
      r := Ok(Schema.Columns(createdColumn, updatedColumn));
    }

    /** `create`. `uuid` is the generated id; `insertFails` is the INSERT's failure, if any. */
    method Create(task: Option<Task>, uuid: string, db: Schema.SchemaDb,
                  insertFails: Option<DatabaseExceptionHelper.DataAccessError>)
      returns (r: Result<Task, ServiceError>, executed: Option<Statement>)
      modifies this
      ensures task.None? ==> r == Err(IllegalArgument("Task must not be null")) && executed == None
                             && schema == old(schema)
      ensures task.Some? ==>
        var t := WithId(task.value, uuid);
        var s := CachedOrLoad(old(schema), props, db);
        (s.Err? ==> r == Err(SchemaFailed(s.error)) && executed == None)
        && (s.Ok? ==> executed == Some(InsertStatement(t, s.value))
                      && r == (if insertFails.None? then Ok(t)
                               else Err(OperationFailed(DatabaseExceptionHelper.WrapOperation("TASK_CREATE_FAILED", "create", insertFails.value)))))
      ensures old(schema).Some? ==> schema == old(schema)
      ensures task.Some? ==> schema == CacheAfter(old(schema), props, db)
    {
      if task.None? {
        return Err(IllegalArgument("Task must not be null")), None;
      }
      var t := task.value;
      if !HasText(t.id) {
        t := t.(id := Some(uuid));
      }
      var s := GetSchema(db);
      if s.Err? {
        return Err(SchemaFailed(s.error)), None;
      }
      var cols, vals := BuildInsert(s.value);
      executed := Some(Statement("INSERT INTO tasks(" + Join(cols, ", ") + ") VALUES(" + Join(vals, ", ") + ")",
                                 [PString(t.id), PString(t.text), PString(t.day), PInt(if t.reminder then 1 else 0)]));
      if insertFails.Some? {
        return Err(OperationFailed(DatabaseExceptionHelper.WrapOperation("TASK_CREATE_FAILED", "create", insertFails.value))), executed;
      }
      r := Ok(t);
    }

    /** `findAll`. `total` and `rows` are what the two queries return; `countFails` and
        `rowsFail` are their failures. Page and limit are Java `Integer`s. */
    method FindAll(page: Option<int>, limit: Option<int>, search: Option<string>, db: Schema.SchemaDb,
                   total: int, rows: seq<Task>,
                   countFails: Option<DatabaseExceptionHelper.DataAccessError>,
                   rowsFail: Option<DatabaseExceptionHelper.DataAccessError>)
      returns (r: Result<PageResult, ServiceError>, executed: seq<Statement>)
      requires page.Some? ==> IsInt(page.value)
      requires limit.Some? ==> IsInt(limit.value)
      modifies this
      ensures var s := CachedOrLoad(old(schema), props, db);
        (s.Err? ==> r == Err(SchemaFailed(s.error)) && executed == [])
        && (s.Ok? ==> (r, executed) == PageQueries(NormalizePage(page), NormalizeLimit(limit), SearchPattern(search),
                                                    s.value, total, rows, countFails, rowsFail))
      ensures old(schema).Some? ==> schema == old(schema)
      ensures schema == CacheAfter(old(schema), props, db)
    {
      var p := if page.None? || page.value < 1 then 1 else page.value;
      var l := if limit.None? || limit.value < 1 then 10 else limit.value;
      var s := GetSchema(db);
      if s.Err? {
        return Err(SchemaFailed(s.error)), [];
      }
      var pattern := None;
      if search.Some? && JavaTrim(search.value) != "" {
        pattern := Some("%" + JavaTrim(search.value) + "%");
      }
      r, executed := RunPageQueries(p, l, pattern, s.value, total, rows, countFails, rowsFail);
    }

    /** `findOne`: the first row, if any. */
    method FindOne(id: Option<string>, rows: seq<Task>, queryFails: Option<DatabaseExceptionHelper.DataAccessError>)
      returns (r: Result<Option<Task>, ServiceError>, executed: Statement)
      ensures executed == FindOneStatement(id)
      ensures r == FindOneOutcome(rows, queryFails)
    {
      executed := Statement("SELECT id, text, day, reminder FROM tasks WHERE id = ?", [PString(id)]);
      if queryFails.Some? {
        return Err(OperationFailed(DatabaseExceptionHelper.WrapOperation("TASK_QUERY_FAILED", "findOne", queryFails.value))), executed;
      }
      r := Ok(if |rows| == 0 then None else Some(rows[0]));
    }

    /** `update`. `updated` is the number of rows the UPDATE changed; `rows` and `findFails` are
        the answer of the re-read that follows a change. */
    method Update(id: Option<string>, task: Task, db: Schema.SchemaDb, updated: int,
                  updateFails: Option<DatabaseExceptionHelper.DataAccessError>,
                  rows: seq<Task>, findFails: Option<DatabaseExceptionHelper.DataAccessError>)
      returns (r: Result<Option<Task>, ServiceError>, executed: seq<Statement>)
      modifies this
      ensures var s := CachedOrLoad(old(schema), props, db);
        (s.Err? ==> r == Err(SchemaFailed(s.error)) && executed == [])
        && (s.Ok? ==> (r, executed) == UpdateOutcome(id, task, s.value, updated, updateFails, rows, findFails))
      ensures old(schema).Some? ==> schema == old(schema)
      ensures schema == CacheAfter(old(schema), props, db)
    {
      var s := GetSchema(db);
      if s.Err? {
        return Err(SchemaFailed(s.error)), [];
      }
      r, executed := ApplyUpdate(id, task, s.value, updated, updateFails, rows, findFails);
    }

    /** The statement part of `update`, once the columns are known. */
    method ApplyUpdate(id: Option<string>, task: Task, s: Schema.Columns, updated: int,
                       updateFails: Option<DatabaseExceptionHelper.DataAccessError>,
                       rows: seq<Task>, findFails: Option<DatabaseExceptionHelper.DataAccessError>)
      returns (r: Result<Option<Task>, ServiceError>, executed: seq<Statement>)
      ensures (r, executed) == UpdateOutcome(id, task, s, updated, updateFails, rows, findFails)
    {
      var setUpdatedAt := if s.updatedAt.Some? then ", " + s.updatedAt.value + " = CURRENT_TIMESTAMP" else "";
      var sql := "UPDATE tasks SET text = ?, day = ?, reminder = ?" + setUpdatedAt + " WHERE id = ?";
      executed := [Statement(sql, [PString(task.text), PString(task.day), PInt(if task.reminder then 1 else 0), PString(id)])];
      if updateFails.Some? {
        return Err(OperationFailed(DatabaseExceptionHelper.WrapOperation("TASK_UPDATE_FAILED", "update", updateFails.value))), executed;
      }
      assert executed[0] == UpdateStatement(id, task, s);
      if updated > 0 {
        var found, query := FindOne(id, rows, findFails);
        executed := [executed[0], query];
        r := found;
      } else {
        r := Ok(None);
      }
    }

    /** `remove`: true exactly when a row was deleted. */
    method Remove(id: Option<string>, affected: int, deleteFails: Option<DatabaseExceptionHelper.DataAccessError>)
      returns (r: Result<bool, ServiceError>, executed: Statement)
      ensures executed == Statement("DELETE FROM tasks WHERE id = ?", [PString(id)])
      ensures deleteFails.Some? ==>
        r == Err(OperationFailed(DatabaseExceptionHelper.WrapOperation("TASK_DELETE_FAILED", "remove", deleteFails.value)))
      ensures deleteFails.None? ==> r.Ok? && (r.value <==> affected > 0)
    {
      executed := Statement("DELETE FROM tasks WHERE id = ?", [PString(id)]);
      if deleteFails.Some? {
        return Err(OperationFailed(DatabaseExceptionHelper.WrapOperation("TASK_DELETE_FAILED", "remove", deleteFails.value))), executed;
      }
      r := Ok(affected > 0);
    }

    /** `removeByName`: the number of rows whose text is `name`. */
    method RemoveByName(name: Option<string>, affected: int, deleteFails: Option<DatabaseExceptionHelper.DataAccessError>)
      returns (r: Result<int, ServiceError>, executed: Statement)
      ensures executed == Statement("DELETE FROM tasks WHERE text = ?", [PString(name)])
      ensures deleteFails.Some? ==>
        r == Err(OperationFailed(DatabaseExceptionHelper.WrapOperation("TASK_DELETE_FAILED", "removeByName", deleteFails.value)))
      ensures deleteFails.None? ==> r == Ok(affected)
    {
      executed := Statement("DELETE FROM tasks WHERE text = ?", [PString(name)]);
      if deleteFails.Some? {
        return Err(OperationFailed(DatabaseExceptionHelper.WrapOperation("TASK_DELETE_FAILED", "removeByName", deleteFails.value))), executed;
      }
      r := Ok(affected);
    }
  }
}
