/** The database settings of the two Node backends. The Express and the Nest backend carry the
    same `getDatabasePath`: the SQLite file lies in the working directory under dev and staging,
    and elsewhere `DATABASE_PATH` may move it. Their TypeORM options differ only in how the task
    entity is registered. */
module NodeDatabaseConfig {
  import PathUtils

  type Env = map<string, string>

  const DatabaseName := "database.sqlite3"

  /** `join(cwd(), DATABASE_NAME)`. */
  function DefaultPath(cwd: string): string {
    PathUtils.PathJoin(cwd, DatabaseName)
  }

  /** NODE_ENV names a development stage, where the working-directory file is always used. */
  predicate IsLocalStage(env: Env) {
    "NODE_ENV" in env && (env["NODE_ENV"] == "dev" || env["NODE_ENV"] == "staging")
  }

  /** `getDatabasePath`, for the working directory `cwd`. */
  function GetDatabasePath(env: Env, cwd: string): (path: string)
    ensures IsLocalStage(env) ==> path == DefaultPath(cwd)
    ensures !IsLocalStage(env) && PathUtils.EnvOr(env, "DATABASE_PATH") != "" ==> path == env["DATABASE_PATH"]
    ensures !IsLocalStage(env) && PathUtils.EnvOr(env, "DATABASE_PATH") == "" ==> path == DefaultPath(cwd)
  {
    if IsLocalStage(env) then DefaultPath(cwd)
    else if PathUtils.EnvOr(env, "DATABASE_PATH") != "" then env["DATABASE_PATH"]
    else DefaultPath(cwd)
  }

  /** The file moves away from the working directory only outside dev and staging, and only to
      the path DATABASE_PATH names. */
  lemma OverrideOnlyOutsideLocalStages(env: Env, cwd: string)
    ensures GetDatabasePath(env, cwd) != DefaultPath(cwd) ==>
      !IsLocalStage(env) && "DATABASE_PATH" in env && GetDatabasePath(env, cwd) == env["DATABASE_PATH"]
    ensures GetDatabasePath(env, cwd) == DefaultPath(cwd) || GetDatabasePath(env, cwd) == env["DATABASE_PATH"]
  {
  }

  /** Adding DATABASE_PATH under dev or staging changes nothing; under any other NODE_ENV, or none,
      a non-empty one is used as given. */
  lemma DatabasePathUnderEachStage(env: Env, cwd: string, dbPath: string)
    requires dbPath != ""
    ensures IsLocalStage(env) ==>
      GetDatabasePath(env["DATABASE_PATH" := dbPath], cwd) == GetDatabasePath(env - {"DATABASE_PATH"}, cwd)
    ensures !IsLocalStage(env) ==> GetDatabasePath(env["DATABASE_PATH" := dbPath], cwd) == dbPath
  {
    assert IsLocalStage(env["DATABASE_PATH" := dbPath]) == IsLocalStage(env);
    assert IsLocalStage(env - {"DATABASE_PATH"}) == IsLocalStage(env);
  }

  /** How the task entity is registered: listed, or found by the module system. */
  datatype Entities = TaskEntity | AutoLoad

  /** The TypeORM options both backends build. */
  datatype Options = Options(dbType: string, database: string, synchronize: bool, logging: bool,
                             entities: Entities)

  /** The options the Express backend builds. */
  function ExpressConfig(env: Env, cwd: string): (o: Options)
    ensures o.dbType == "sqlite" && o.synchronize && o.entities == TaskEntity
    ensures o.database == GetDatabasePath(env, cwd)
    ensures o.logging <==> "NODE_ENV" in env && env["NODE_ENV"] == "dev"
  {
    Options("sqlite", GetDatabasePath(env, cwd), true, "NODE_ENV" in env && env["NODE_ENV"] == "dev", TaskEntity)
  }

  /** The options the Nest backend builds. */
  function NestConfig(env: Env, cwd: string): (o: Options)
    ensures o.dbType == "sqlite" && o.synchronize && o.entities == AutoLoad
    ensures o.database == GetDatabasePath(env, cwd)
    ensures o.logging <==> "NODE_ENV" in env && env["NODE_ENV"] == "dev"
  {
    Options("sqlite", GetDatabasePath(env, cwd), true, "NODE_ENV" in env && env["NODE_ENV"] == "dev", AutoLoad)
  }

  /** Under one environment the two backends open the same file with the same logging; staging
      shares dev's file but logs no SQL. */
  lemma BackendsShareTheFile(env: Env, cwd: string)
    ensures ExpressConfig(env, cwd).database == NestConfig(env, cwd).database
    ensures ExpressConfig(env, cwd).logging == NestConfig(env, cwd).logging
    ensures "NODE_ENV" in env && env["NODE_ENV"] == "staging" ==>
      !ExpressConfig(env, cwd).logging && ExpressConfig(env, cwd).database == DefaultPath(cwd)
  {
  }
}
