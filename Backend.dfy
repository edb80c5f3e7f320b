/** Launching the selected backend: the default port, the java command, the Spring argument
    vector and environment, the environment every child gets, and the dispatch between the Java
    and the Node launch. Waiting for the backend to answer is in `BackendProbe`. */
module Backend {
  import opened Wrappers
  import opened Text
  import PathUtils

  type Env = map<string, string>

  /** `env[key]` where only an absent key counts as missing (JavaScript `??`). */
  function Lookup(env: Env, key: string): Option<string> {
    if key in env then Some(env[key]) else None
  }

  /** `resolveDefaultPortForEnvironment`. */
  function DefaultPort(environment: string): (port: string)
    ensures port == "3000" <==> environment == "dev" || environment == "staging"
    ensures port == "3000" || port == "5000"
  {
    match environment
    case "dev" => "3000"
    case "staging" => "3000"
    case _ => "5000"
  }

  /** The name of the java launcher on the host platform. */
  function JavaExecutable(win32: bool): string {
    if win32 then "java.exe" else "java"
  }

  /** `resolveJavaCommand`: `<JAVA_HOME>/bin/java[.exe]` when JAVA_HOME is set and non-empty, the
      bare launcher name otherwise. */
  function ResolveJavaCommand(env: Env, win32: bool): (command: string)
    ensures EndsWith(command, JavaExecutable(win32))
    ensures PathUtils.EnvOr(env, "JAVA_HOME") != "" ==>
      StartsWith(command, env["JAVA_HOME"] + "/bin/")
    ensures PathUtils.EnvOr(env, "JAVA_HOME") != "" ==>
      command == env["JAVA_HOME"] + "/bin/" + JavaExecutable(win32)
    ensures PathUtils.EnvOr(env, "JAVA_HOME") == "" ==> command == JavaExecutable(win32)
  {
    var home := PathUtils.EnvOr(env, "JAVA_HOME");
    if home != "" then
      var c := PathUtils.PathJoin(PathUtils.PathJoin(home, "bin"), JavaExecutable(win32));
      assert c == (home + "/bin/") + JavaExecutable(win32);
      c
    else JavaExecutable(win32)
  }

  /** `SPRING_PROFILES_ACTIVE ?? NODE_ENV ?? 'prod'`. */
  function SpringProfile(env: Env): string {
    Lookup(env, "SPRING_PROFILES_ACTIVE").GetOr(Lookup(env, "NODE_ENV").GetOr("prod"))
  }

  /** How a child process is started. */
  datatype Launch =
    | Spawn(command: string, args: seq<string>, env: Env)   // `spawn(command, args, { env })`
    | Fork(modulePath: string, env: Env)                    // `fork(modulePath, { env })`

  /** Which stream of the Spring child a chunk of output came from. */
  datatype Stream = Stdout | Stderr

  /** The log a chunk of the Spring child's output is written to. */
  function StreamLogType(s: Stream): string {
    match s
    case Stdout => "info"
    case Stderr => "error"
  }

  /** `startSpringBackend`: `java -jar <dir>/app.jar --server.port=<port> --spring.profiles.active=<p>`
      with SERVER_PORT and SPRING_PROFILES_ACTIVE added to the environment. The port and the
      profile are passed twice, on the command line and in the environment, with the same values,
      and every other variable reaches the child unchanged. */
  function StartSpringBackend(folder: string, env: Env, port: string, win32: bool): (l: Launch)
    ensures l.Spawn? && l.command == ResolveJavaCommand(env, win32)
    ensures l.Spawn? ==>
      |l.args| == 4 && l.args[0] == "-jar" && l.args[1] == PathUtils.PathJoin(folder, "app.jar")
      && "SERVER_PORT" in l.env && "SPRING_PROFILES_ACTIVE" in l.env
      && l.env["SERVER_PORT"] == port && l.env["SPRING_PROFILES_ACTIVE"] == SpringProfile(env)
      && l.args[2] == "--server.port=" + l.env["SERVER_PORT"]
      && l.args[3] == "--spring.profiles.active=" + l.env["SPRING_PROFILES_ACTIVE"]
    ensures l.Spawn? ==>
      forall key :: key in env && key != "SERVER_PORT" && key != "SPRING_PROFILES_ACTIVE" ==>
        key in l.env && l.env[key] == env[key]
  {
    var profile := SpringProfile(env);
    var e := env["SERVER_PORT" := port]["SPRING_PROFILES_ACTIVE" := profile];
    assert "SERVER_PORT" != "SPRING_PROFILES_ACTIVE";
    assert e["SERVER_PORT"] == port;
    Spawn(ResolveJavaCommand(env, win32),
          ["-jar", PathUtils.PathJoin(folder, "app.jar"), "--server.port=" + port, "--spring.profiles.active=" + profile],
          e)
  }

  /** The profile is SPRING_PROFILES_ACTIVE when set (even empty), else NODE_ENV, else "prod". */
  lemma SpringProfileChoice(env: Env)
    ensures "SPRING_PROFILES_ACTIVE" in env ==> SpringProfile(env) == env["SPRING_PROFILES_ACTIVE"]
    ensures "SPRING_PROFILES_ACTIVE" !in env && "NODE_ENV" in env ==> SpringProfile(env) == env["NODE_ENV"]
    ensures "SPRING_PROFILES_ACTIVE" !in env && "NODE_ENV" !in env ==> SpringProfile(env) == "prod"
  {
  }

  /** The port the child listens on: a non-empty PORT, else the environment's default. */
  function ResolvedPort(processEnv: Env, runtimeEnv: string): (port: string)
    ensures port != ""
  {
    if PathUtils.EnvOr(processEnv, "PORT") != "" then processEnv["PORT"] else DefaultPort(runtimeEnv)
  }

  /** The environment every backend child gets: the process environment with DATABASE_PATH,
      PORT, NODE_ENV, BACKEND and APP_PROFILE set. */
  function ChildEnv(processEnv: Env, folder: string, databaseName: string, runtimeEnv: string): Env {
    processEnv["DATABASE_PATH" := PathUtils.PathJoin(folder, databaseName)]
              ["PORT" := ResolvedPort(processEnv, runtimeEnv)]
              ["NODE_ENV" := runtimeEnv]
              ["BACKEND" := PathUtils.GetBackendName(processEnv).Name()]
              ["APP_PROFILE" := PathUtils.EnvOr(processEnv, "APP_PROFILE")]
  }

  /** The launch `startBackend` makes once the backend folder is known: the Java launch for the
      Spring backend, a fork of `<folder>/main.js` for every other one. */
  function BackendLaunch(processEnv: Env, folder: string, databaseName: string, runtimeEnv: string,
                         win32: bool): Launch {
    var env := ChildEnv(processEnv, folder, databaseName, runtimeEnv);
    if PathUtils.GetBackendName(processEnv) == PathUtils.SpringBackend then
      StartSpringBackend(folder, env, ResolvedPort(processEnv, runtimeEnv), win32)
    else Fork(PathUtils.PathJoin(folder, "main.js"), env)
  }

  /** One `logToFile` call of `startBackend`, every one into the backend folder: a message with
      its log type, or the child environment dumped as JSON (the JSON text is not modelled). */
  datatype StartLog = Note(logType: string, message: string) | EnvironmentDump(env: Env)

  /** What `startBackend` does once the backend folder, the child environment and the port are
      known: it logs the backend name, the environment and the entry point (and, for Spring, the
      Java command line), then launches. */
  method LaunchFrom(backend: PathUtils.Backend, folder: string, env: Env, port: string, win32: bool)
    returns (launch: Launch, logs: seq<StartLog>)
    ensures launch == if backend == PathUtils.SpringBackend then StartSpringBackend(folder, env, port, win32)
                      else Fork(PathUtils.PathJoin(folder, "main.js"), env)
    ensures |logs| == (if launch.Spawn? then 4 else 3)
    ensures logs[0] == Note("info", "Starting backend service (" + backend.Name() + ")...")
    ensures logs[1] == EnvironmentDump(env)
    ensures launch.Fork? ==> logs[2] == Note("info", "Server path: " + launch.modulePath)
    ensures launch.Spawn? ==>
      |launch.args| == 4 && logs[2] == Note("info", "Server path: " + launch.args[1])
      && logs[3] == Note("info", "Starting Spring backend: " + launch.command + " " + Join(launch.args, " "))
  {
    var starting := Note("info", "Starting backend service (" + backend.Name() + ")...");
    if backend == PathUtils.SpringBackend {
      var jarPath := PathUtils.PathJoin(folder, "app.jar");
      launch := StartSpringBackend(folder, env, port, win32);
      logs := [starting, EnvironmentDump(env), Note("info", "Server path: " + jarPath),
               Note("info", "Starting Spring backend: " + launch.command + " " + Join(launch.args, " "))];
    } else {
      var serverPath := PathUtils.PathJoin(folder, "main.js");
      launch := Fork(serverPath, env);
      logs := [starting, EnvironmentDump(env), Note("info", "Server path: " + serverPath)];
    }
  }

  /** `startBackend`: finds the backend folder, then logs and launches as `LaunchFrom` says. */
  method StartBackend(processEnv: Env, runtimeEnv: string, cwd: string, resourcesPath: string,
                      existing: set<string>, databaseName: string, win32: bool)
    returns (folder: string, launch: Launch, logs: seq<StartLog>)
    ensures runtimeEnv != "prod" ==>
      folder == PathUtils.PathJoin(PathUtils.PathJoin(cwd, "dist"), PathUtils.GetBackendName(processEnv).Name())
    ensures runtimeEnv == "prod" ==>
      folder == PathUtils.FirstExisting(PathUtils.ProdBackendCandidates(processEnv, resourcesPath, existing), existing)
    ensures launch == BackendLaunch(processEnv, folder, databaseName, runtimeEnv, win32)
    ensures |logs| == (if launch.Spawn? then 4 else 3)
    ensures logs[0] == Note("info", "Starting backend service (" + PathUtils.GetBackendName(processEnv).Name() + ")...")
    ensures logs[1] == EnvironmentDump(ChildEnv(processEnv, folder, databaseName, runtimeEnv))
    ensures launch.Fork? ==> logs[2] == Note("info", "Server path: " + launch.modulePath)
    ensures launch.Spawn? ==>
      |launch.args| == 4 && logs[2] == Note("info", "Server path: " + launch.args[1])
      && logs[3] == Note("info", "Starting Spring backend: " + launch.command + " " + Join(launch.args, " "))
  {
    folder := PathUtils.GetRootBackendFolderPath(processEnv, runtimeEnv, cwd, resourcesPath, existing);
    launch, logs := LaunchFrom(PathUtils.GetBackendName(processEnv), folder,
                               ChildEnv(processEnv, folder, databaseName, runtimeEnv),
                               ResolvedPort(processEnv, runtimeEnv), win32);
  }

  /** The dispatch is exhaustive: the Spring backend is spawned through java with its jar, every
      other backend is forked from `main.js`. */
  lemma LaunchDispatch(processEnv: Env, folder: string, databaseName: string, runtimeEnv: string, win32: bool)
    ensures var l := BackendLaunch(processEnv, folder, databaseName, runtimeEnv, win32);
      (l.Spawn? <==> PathUtils.GetBackendName(processEnv) == PathUtils.SpringBackend)
      && (l.Spawn? ==> l.args[1] == PathUtils.PathJoin(folder, "app.jar") && EndsWith(l.command, JavaExecutable(win32)))
      && (l.Fork? ==> l.modulePath == PathUtils.PathJoin(folder, "main.js"))
  {
    var env := ChildEnv(processEnv, folder, databaseName, runtimeEnv);
    if PathUtils.GetBackendName(processEnv) == PathUtils.SpringBackend {
    }
  }

  /** The five variables every backend child is given. */
  lemma ChildEnvContents(processEnv: Env, folder: string, databaseName: string, runtimeEnv: string)
    ensures var e := ChildEnv(processEnv, folder, databaseName, runtimeEnv);
      e.Keys == processEnv.Keys + {"DATABASE_PATH", "PORT", "NODE_ENV", "BACKEND", "APP_PROFILE"}
      && e["DATABASE_PATH"] == PathUtils.PathJoin(folder, databaseName)
      && e["NODE_ENV"] == runtimeEnv
      && e["BACKEND"] == PathUtils.GetBackendName(processEnv).Name()
      && e["APP_PROFILE"] == PathUtils.EnvOr(processEnv, "APP_PROFILE")
      && e["PORT"] == (if PathUtils.EnvOr(processEnv, "PORT") != "" then processEnv["PORT"] else DefaultPort(runtimeEnv))
  {
    assert "DATABASE_PATH" != "PORT" && "DATABASE_PATH" != "NODE_ENV" && "DATABASE_PATH" != "BACKEND" && "DATABASE_PATH" != "APP_PROFILE";
    assert "PORT" != "NODE_ENV" && "PORT" != "BACKEND" && "PORT" != "APP_PROFILE";
    assert "NODE_ENV" != "BACKEND" && "NODE_ENV" != "APP_PROFILE" && "BACKEND" != "APP_PROFILE";
  }

  /** When `startBackend` launches Spring the profile is the process's SPRING_PROFILES_ACTIVE when
      that is set, else the runtime environment: NODE_ENV is always set by then, so the "prod"
      fallback of `startSpringBackend` is never reached from here. */
  lemma SpringProfileFromStartBackend(processEnv: Env, folder: string, databaseName: string, runtimeEnv: string, win32: bool)
    requires PathUtils.GetBackendName(processEnv) == PathUtils.SpringBackend
    ensures var l := BackendLaunch(processEnv, folder, databaseName, runtimeEnv, win32);
      l.Spawn? && l.args[3] == "--spring.profiles.active=" +
        (if "SPRING_PROFILES_ACTIVE" in processEnv then processEnv["SPRING_PROFILES_ACTIVE"] else runtimeEnv)
      && l.args[2] == "--server.port=" + l.env["PORT"]
  {
    var env := ChildEnv(processEnv, folder, databaseName, runtimeEnv);
    var port := ResolvedPort(processEnv, runtimeEnv);
    ChildEnvSpringKeys(processEnv, folder, databaseName, runtimeEnv);
    SpringProfileChoice(env);
  }

  /** The child environment keeps SPRING_PROFILES_ACTIVE as the process had it, and sets NODE_ENV
      and PORT. */
  lemma ChildEnvSpringKeys(processEnv: Env, folder: string, databaseName: string, runtimeEnv: string)
    ensures var e := ChildEnv(processEnv, folder, databaseName, runtimeEnv);
      ("SPRING_PROFILES_ACTIVE" in e <==> "SPRING_PROFILES_ACTIVE" in processEnv)
      && ("SPRING_PROFILES_ACTIVE" in processEnv ==>
            e["SPRING_PROFILES_ACTIVE"] == processEnv["SPRING_PROFILES_ACTIVE"])
      && "NODE_ENV" in e && e["NODE_ENV"] == runtimeEnv
      && "PORT" in e && e["PORT"] == ResolvedPort(processEnv, runtimeEnv)
  {
    var k := "SPRING_PROFILES_ACTIVE";
    assert k != "DATABASE_PATH" && k != "PORT" && k != "NODE_ENV" && k != "BACKEND" && k != "APP_PROFILE";
    assert "PORT" != "NODE_ENV" && "PORT" != "BACKEND" && "PORT" != "APP_PROFILE";
    assert "NODE_ENV" != "BACKEND" && "NODE_ENV" != "APP_PROFILE";
  }
}
