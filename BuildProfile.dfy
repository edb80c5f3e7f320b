/** The build script, in its TypeScript form and its older JavaScript form: the profile picks one
    frontend and one backend, the frontend is built, then the backend with the steps its kind
    needs. Shell commands become the list of commands run; the file system is a `FileStore`. */
module BuildProfile {
  import opened Wrappers
  import opened Text
  import PathUtils
  import FileUtils

  /** The two versions of the script. */
  datatype Script = TsScript | MjsScript

  /** `normalizeProfile`: a missing or empty profile is "ng-nest"; the result is trimmed and
      lower-cased. */
  function NormalizeProfile(profile: string): (r: string)
    ensures profile == "" ==> r == "ng-nest"
    ensures profile != "" ==> r == TrimLower(profile)
  {
    TrimLower(if profile == "" then "ng-nest" else profile)
  }

  /** `inferFrontendProject` on a normalised profile: "vue" before "react", else the Angular app. */
  function InferFrontendProject(profile: string): (f: PathUtils.Frontend)
    ensures Contains(profile, "vue") <==> f == PathUtils.VueTracker
    ensures f == PathUtils.ReactTracker <==> !Contains(profile, "vue") && Contains(profile, "react")
  {
    if Contains(profile, "vue") then PathUtils.VueTracker
    else if Contains(profile, "react") then PathUtils.ReactTracker
    else PathUtils.NgTracker
  }

  /** `inferBackendProject` on a normalised profile: "express" before "spring", else Nest. */
  function InferBackendProject(profile: string): (b: PathUtils.Backend)
    ensures Contains(profile, "express") <==> b == PathUtils.ExpressBackend
    ensures b == PathUtils.SpringBackend <==> !Contains(profile, "express") && Contains(profile, "spring")
  {
    if Contains(profile, "express") then PathUtils.ExpressBackend
    else if Contains(profile, "spring") then PathUtils.SpringBackend
    else PathUtils.NestBackend
  }

  lemma DefaultProfileIsNgNest()
    ensures InferFrontendProject(NormalizeProfile("")) == PathUtils.NgTracker
    ensures InferBackendProject(NormalizeProfile("")) == PathUtils.NestBackend
  {
    TrimLowerOfCanonical("ng-nest");
    assert NormalizeProfile("") == "ng-nest";
    NgNestNamesNoOtherProject();
  }

  /** "ng-nest" names neither of the other frontends nor either of the other backends. */
  lemma NgNestNamesNoOtherProject()
    ensures !Contains("ng-nest", "vue") && !Contains("ng-nest", "react")
    ensures !Contains("ng-nest", "express") && !Contains("ng-nest", "spring")
  {
    MissingCharRefutes("ng-nest", "vue", 'v');
    MissingCharRefutes("ng-nest", "react", 'r');
    MissingCharRefutes("ng-nest", "express", 'x');
    MissingCharRefutes("ng-nest", "spring", 'p');
  }

  /** The build picks the same frontend and backend as the launcher infers from the same
      APP_PROFILE when no FRONTEND or BACKEND override is set: the empty profile, which the build
      replaces by "ng-nest", leads both to the Angular frontend and the Nest backend. */
  lemma BuildAgreesWithLauncher(env: PathUtils.Env)
    requires PathUtils.EnvOr(env, "FRONTEND") == "" && PathUtils.EnvOr(env, "BACKEND") == ""
    ensures var profile := NormalizeProfile(PathUtils.EnvOr(env, "APP_PROFILE"));
      InferFrontendProject(profile) == PathUtils.GetFrontendName(env)
      && InferBackendProject(profile) == PathUtils.GetBackendName(env)
  {
    var raw := PathUtils.EnvOr(env, "APP_PROFILE");
    if raw == "" {
      DefaultProfileIsNgNest();
      assert TrimLower(raw) == "";
      MissingCharRefutes("", "vue", 'v');
      MissingCharRefutes("", "react", 'r');
      MissingCharRefutes("", "express", 'x');
      MissingCharRefutes("", "spring", 'p');
    }
  }

  /** One command run through the shell, with the working directory and environment it was
      given when they differ from the script's own. */
  datatype Exec = Exec(command: string, cwd: Option<string>, env: Option<PathUtils.Env>)

  /** The Angular build command up to its base href. */
  const NgBuildPrefix := "pnpm exec nx build " + "ng-tracker" + NgBuildOptions
  const NgBuildOptions := " --configuration production --optimization "

  /** The frontend build: the Angular app with the production configuration, optimisation and a
      relative base href, every other frontend with a plain build; each builds its own project. */
  function FrontendBuild(f: PathUtils.Frontend): (e: Exec)
    ensures StartsWith(e.command, "pnpm exec nx build " + f.Name())
    ensures f == PathUtils.NgTracker <==> Contains(e.command, "--base-href ./")
    ensures f == PathUtils.NgTracker ==> e.command == NgBuildPrefix + "--base-href ./"
    ensures f != PathUtils.NgTracker ==> e.command == "pnpm exec nx build " + f.Name()
    ensures e.cwd == None && e.env == None
  {
    if f == PathUtils.NgTracker then
      ContainsOwnSuffix(NgBuildPrefix, "--base-href ./");
      var head := "pnpm exec nx build " + f.Name();
      assert NgBuildPrefix + "--base-href ./" == head + (NgBuildOptions + "--base-href ./");
      Exec(NgBuildPrefix + "--base-href ./", None, None)
    else
      PlainBuildHasNoBaseHref(f);
      var command := "pnpm exec nx build " + f.Name();
      assert command[..|command|] == command;
      Exec(command, None, None)
  }

  /** The plain build of the Vue or React tracker sets no base href. */
  lemma PlainBuildHasNoBaseHref(f: PathUtils.Frontend)
    requires f != PathUtils.NgTracker
    ensures !Contains("pnpm exec nx build " + f.Name(), "--base-href ./")
  {
    var prefix := "pnpm exec nx build ";
    assert 'h' !in prefix;
    assert 'h' !in f.Name();
    assert 'h' !in prefix + f.Name();
    MissingCharRefutes(prefix + f.Name(), "--base-href ./", 'h');
  }

  /** The environment of a Node backend build: NODE_ENV defaults to "prod" and PORT to "5000",
      an empty value counting as missing. */
  function NodeBuildEnv(env: PathUtils.Env): (e: PathUtils.Env)
    ensures e.Keys == env.Keys + {"NODE_ENV", "PORT"}
    ensures e["NODE_ENV"] == (if PathUtils.EnvOr(env, "NODE_ENV") != "" then env["NODE_ENV"] else "prod")
    ensures e["PORT"] == (if PathUtils.EnvOr(env, "PORT") != "" then env["PORT"] else "5000")
    ensures forall k :: k in env && k != "NODE_ENV" && k != "PORT" ==> e[k] == env[k]
  {
    var nodeEnv := if PathUtils.EnvOr(env, "NODE_ENV") != "" then env["NODE_ENV"] else "prod";
    var port := if PathUtils.EnvOr(env, "PORT") != "" then env["PORT"] else "5000";
    assert "NODE_ENV" != "PORT";
    env["NODE_ENV" := nodeEnv]["PORT" := port]
  }

  /** The helper that assembles the Spring distribution, as each script calls it. */
  function PrepareSpringDistCommand(script: Script): string {
    match script
    case TsScript => "node --loader ts-node/esm tools/prepare-spring-dist.ts"
    case MjsScript => "node tools/prepare-spring-dist.mjs"
  }

  const PrepareJavaRuntimeCommand := "node --loader ts-node/esm tools/prepare-java-runtime.ts"
  const MavenPackageCommand := "mvn -f pom.xml -DskipTests package"
  const NpmInstallCommand := "npm install --omit=dev"

  /** The commands of the Spring backend build, in order. */
  function SpringBuild(script: Script): (runs: seq<Exec>)
    ensures |runs| >= 2 && runs[0].command == MavenPackageCommand && runs[1].command == PrepareSpringDistCommand(script)
    ensures script == TsScript <==> |runs| == 3
    ensures script == TsScript ==> runs[2].command == PrepareJavaRuntimeCommand
  {
    [Exec(MavenPackageCommand, None, None), Exec(PrepareSpringDistCommand(script), None, None)]
      + (if script == TsScript then [Exec(PrepareJavaRuntimeCommand, None, None)] else [])
  }

  /** The profile, frontend and backend the script settles on. */
  function ProfileOf(env: PathUtils.Env): string {
    NormalizeProfile(PathUtils.EnvOr(env, "APP_PROFILE"))
  }

  function BackendDistDir(cwd: string, backend: PathUtils.Backend): string {
    PathUtils.PathJoin(cwd, "dist/" + backend.Name())
  }

  /** The build of a Node backend, with the defaulted environment. */
  function NodeBackendBuild(backend: PathUtils.Backend, env: PathUtils.Env): Exec {
    Exec("pnpm exec nx build " + backend.Name(), None, Some(NodeBuildEnv(env)))
  }

  /** The commands the script runs when every one of them succeeds and, for a Node backend,
      `dist/<backend>` exists after its build: the frontend build, then the backend's steps. */
  function PlannedRuns(script: Script, env: PathUtils.Env, cwd: string): (runs: seq<Exec>)
    ensures var backend := InferBackendProject(ProfileOf(env));
      |runs| >= 3 && runs[0] == FrontendBuild(InferFrontendProject(ProfileOf(env)))
      && (backend == PathUtils.SpringBackend ==> runs[1..] == SpringBuild(script))
      && (backend != PathUtils.SpringBackend ==>
            runs[1..] == [NodeBackendBuild(backend, env), Exec(NpmInstallCommand, Some(BackendDistDir(cwd, backend)), None)])
  {
    var backend := InferBackendProject(ProfileOf(env));
    [FrontendBuild(InferFrontendProject(ProfileOf(env)))]
      + if backend == PathUtils.SpringBackend then SpringBuild(script)
        else [NodeBackendBuild(backend, env), Exec(NpmInstallCommand, Some(BackendDistDir(cwd, backend)), None)]
  }

  /** How many of the planned commands the script gets to when none fails: all of them, except
      that a Node backend whose `dist/<backend>` is missing stops before `npm install`. */
  function Reachable(script: Script, env: PathUtils.Env, cwd: string, distExists: bool): (n: nat)
    ensures n <= |PlannedRuns(script, env, cwd)|
    ensures n < |PlannedRuns(script, env, cwd)| <==>
      InferBackendProject(ProfileOf(env)) != PathUtils.SpringBackend && !distExists
  {
    if InferBackendProject(ProfileOf(env)) == PathUtils.SpringBackend || distExists
    then |PlannedRuns(script, env, cwd)| else 2
  }

  /** `execSync` throws for a command that exits with a non-zero status. */
  function CommandFailed(command: string): string {
    "Command failed: " + command
  }

  function DistMissing(distDir: string): string {
    "Expected " + distDir + " to exist after build."
  }

  /** `run` of the planned command with index `k`: it is recorded after the ones before it, and
      `execSync` throws when it is the failing one. */
  method Run(planned: seq<Exec>, k: nat, failing: Option<nat>) returns (runs: seq<Exec>, error: Option<string>)
    requires k < |planned|
    ensures runs == planned[..k + 1]
    ensures error.Some? <==> failing == Some(k)
    ensures error.Some? ==> error.value == CommandFailed(planned[k].command)
  {
    runs := planned[..k + 1];
    error := if failing == Some(k) then Some(CommandFailed(planned[k].command)) else None;
  }

  /** The steps after the planned commands are known: `planned` lists them, and `distDir` is where
      a Node backend build leaves its output. */
  method RunPlanned(script: Script, backend: PathUtils.Backend, planned: seq<Exec>, distDir: string,
                    fs: FileUtils.FileStore, failing: Option<nat>, unlinkFailure: FileUtils.UnlinkFailure)
    returns (runs: seq<Exec>, error: Option<string>)
    requires |planned| == if backend == PathUtils.SpringBackend then 1 + |SpringBuild(script)| else 3
    modifies fs
    ensures var reached := if backend == PathUtils.SpringBackend || old(fs.Exists(distDir)) then |planned| else 2;
      failing.Some? && failing.value < reached ==>
        runs == planned[..failing.value + 1] && error == Some(CommandFailed(planned[failing.value].command))
        && fs.files == old(fs.files)
    ensures var reached := if backend == PathUtils.SpringBackend || old(fs.Exists(distDir)) then |planned| else 2;
      failing.None? || failing.value >= reached ==>
        runs == planned[..reached]
        && error == (if reached < |planned| then Some(DistMissing(distDir)) else None)
        && fs.files == (if script == TsScript && backend != PathUtils.SpringBackend && reached == |planned|
                        then FileUtils.LogsReset(old(fs.files), distDir) else old(fs.files))
    ensures fs.dirs == old(fs.dirs)
  {
    // the frontend build
    runs, error := Run(planned, 0, failing);
    if error.Some? {
      return;
    }
    // the backend build: Maven for Spring, nx for a Node backend
    runs, error := Run(planned, 1, failing);
    if error.Some? {
      return;
    }
    if backend == PathUtils.SpringBackend {
      // the Spring distribution, then (TypeScript script only) the Java runtime
      runs, error := Run(planned, 2, failing);
      if error.Some? || script == MjsScript {
        return;
      }
      runs, error := Run(planned, 3, failing);
      return;
    }
    if !fs.Exists(distDir) {
      error := Some(DistMissing(distDir));
      return;
    }
    // npm install in the built backend
    runs, error := Run(planned, 2, failing);
    if error.Some? {
      return;
    }
    if script == TsScript {
      fs.ResetLogs(distDir, unlinkFailure);
    }
  }

  /** The whole script. `failing` is the index, in running order, of the first command that exits
      with a non-zero status, if any: the script stops there. `fs` says which paths exist once the
      backend is built; when `dist/<backend>` is missing after a Node backend build the script
      throws. The TypeScript script then resets the two log files there. */
  method Build(script: Script, env: PathUtils.Env, cwd: string, fs: FileUtils.FileStore,
               failing: Option<nat>, unlinkFailure: FileUtils.UnlinkFailure)
    returns (runs: seq<Exec>, error: Option<string>)
    modifies fs
    ensures var planned := PlannedRuns(script, env, cwd);
      var reached := Reachable(script, env, cwd, old(fs.Exists(BackendDistDir(cwd, InferBackendProject(ProfileOf(env))))));
      failing.Some? && failing.value < reached ==>
        runs == planned[..failing.value + 1] && error == Some(CommandFailed(planned[failing.value].command))
        && fs.files == old(fs.files)
    ensures var planned := PlannedRuns(script, env, cwd);
      var backend := InferBackendProject(ProfileOf(env));
      var distDir := BackendDistDir(cwd, backend);
      var reached := Reachable(script, env, cwd, old(fs.Exists(distDir)));
      failing.None? || failing.value >= reached ==>
        runs == planned[..reached]
        && error == (if reached < |planned| then Some(DistMissing(distDir)) else None)
        && fs.files == (if script == TsScript && backend != PathUtils.SpringBackend && reached == |planned|
                        then FileUtils.LogsReset(old(fs.files), distDir) else old(fs.files))
    ensures fs.dirs == old(fs.dirs)
  {
    var backend := InferBackendProject(ProfileOf(env));
    var planned := PlannedRuns(script, env, cwd);
    assert |planned| == 1 + |planned[1..]|;
    runs, error := RunPlanned(script, backend, planned, BackendDistDir(cwd, backend), fs, failing, unlinkFailure);
  }
}
