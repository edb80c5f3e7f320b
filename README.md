# Task tracker desktop shell — a Dafny model of its decision logic

The system is an Electron desktop shell. It picks one of three frontends (Angular, Vue, React)
and one of three backends (Nest, Express, Spring Boot), starts the backend, waits until it
answers, and then shows the UI. Around that sit build and packaging scripts and the backends'
own task services. This project models the decision and bookkeeping code in all of it:

- **Profile and path resolution** (`PathUtils`, `BuildProfile`, `ForgeConfig`). Name
  normalisation and inference from `APP_PROFILE`, override-wins precedence, and ordered,
  de-duplicated candidate lists resolved against a set of existing paths.
- **Backend launch and readiness** (`Backend`, `BackendProbe`). The default port, the java
  command, the Spring argument vector and environment, the Node child's environment, and the
  bounded attempts-by-URLs probe loop with its trace of probes and delays.
- **Logging and windows** (`FileUtils`, `Frontend`). The log line and file, and that write
  failures are swallowed. The two window slots as a class: idempotent creation, reset on close,
  and the production-else-dev entry choice.
- **Tooling** (`WithEnv`, `PrepareSpringDist`, `PrepareJavaRuntime`). The `with-env` argument
  parser with its `--` terminator and fatal errors, env-file layering and the env-cmd argument
  vector. Jar selection: filter, sort, take the last. Java module list normalisation and the
  JDK search.
- **Spring backend** (`DatabaseExceptionHelper`, `GlobalExceptionHandler`, `Schema`,
  `TaskService`, `DataSourceConfig`, `TaskController`):
  - error-code classification by message;
  - the ordered error body, with the root-cause walk and the shortened stack trace;
  - timestamp-column detection and migration, including the memoised schema;
  - page, limit and offset normalisation and the query shapes;
  - the datasource precedence chain;
  - the controller's response maps.
- **Node backends and the Angular client** (`ExpressTaskService`, `NodeDatabaseConfig`,
  `ErrorFormatter`, `NgTaskService`). Express paging and search, with the writes over a table
  taken as a map. The database path and TypeORM options of both Node backends. The mapping from
  error codes to user messages. The API-URL precedence, with the `taskApiUrl` parameter read
  through the form decoding of `URLSearchParams` ('+' as a space, `%XX` escapes), and the query
  string `getTasks` sends, down to what a backend reads back.

Shared helpers hold no source logic of their own: `Wrappers` (Option, Result), `Text` (ASCII
case mapping, the JavaScript and Java trims, split and join, number printing), `Seqs`
(insertion-ordered de-duplication), `Sorting` (code-point order and insertion sort) and `Js`
(JavaScript truthiness and string conversion).

The outside world enters every operation as a parameter:

- file existence is a set of paths, and directory listings are maps;
- HTTP probe outcomes, failures of file-system and SQL calls, the generated UUID and the
  timestamp are inputs;
- commands run are returned as a list, and so are the `logToFile` writes of the backend start
  and the readiness probe (type and message, in order); the log file itself is a class's state.

State the source updates in place is a class: `FileUtils.FileStore`, `Frontend.WindowManager`,
`Schema.SchemaBean`, `TaskService.TaskService` and `DataSourceConfig.DataSourceConfiguration`.
Loops in the source are methods with loop invariants, proved against a specification function.
The properties of that function are proved as lemmas.

Where the TypeScript and the older `.mjs` variants of a build script differ, both are modelled,
and the lemmas say where they agree. Two places where the Spring start-up bean and the task
service judge "is this SQLite?" differently are proved as lemmas:
`TaskService.DatabasePathMakesServiceStricter` and
`DataSourceConfig.FoundFileIsSqliteOnlyToTheDataSource`. They are reported as observed
behaviour, not as bugs, because neither contradicts a stated intent.

## Model

| member | source | states |
|---|---|---|
| PathUtils.NormalizeFrontendName | src/path-utils.ts:11-28 | after trimming and lower-casing, vue/vue-tracker and exactly those give the Vue tracker, react/react-tracker and exactly those give the React tracker, anything else (ng, angular, empty, unknown) gives ng-tracker |
| PathUtils.NormalizeBackendName | src/path-utils.ts:51-69 | express/express-backend and exactly those give Express, spring/spring-boot/spring-backend and exactly those give Spring, anything else gives nest-backend |
| PathUtils.InferFrontendNameFromProfile | src/path-utils.ts:30-39 | a profile containing "vue" gives Vue even if it also contains "react"; otherwise "react" gives React; otherwise ng-tracker |
| PathUtils.InferBackendNameFromProfile | src/path-utils.ts:71-80 | priority express > spring > nest; a profile naming none of them, or empty, gives nest-backend |
| PathUtils.GetFrontendName | src/path-utils.ts:41-49 | a non-empty FRONTEND is normalised and used; without it the frontend is Vue exactly when the trimmed lower-case APP_PROFILE contains "vue", and React exactly when it contains "react" but not "vue" |
| PathUtils.GetBackendName | src/path-utils.ts:82-90 | a non-empty BACKEND is normalised and used; without it the backend is Express exactly when the trimmed lower-case APP_PROFILE contains "express", and Spring exactly when it contains "spring" but not "express" |
| PathUtils.NormalizeFrontendCanonical | src/path-utils.ts:11-28 | each frontend's own name, in any case and padding, normalises to that frontend |
| PathUtils.NormalizeBackendCanonical | src/path-utils.ts:51-69 | each backend's own name, in any case and padding, normalises to that backend |
| PathUtils.NormalizeIgnoresCaseAndPadding | src/path-utils.ts:11-80 | all four name functions give the same answer for a value and for its trimmed lower-case form |
| PathUtils.InferFrontendFromCanonicalName | src/path-utils.ts:30-39 | a profile that is a frontend's own name infers that frontend |
| PathUtils.InferBackendFromCanonicalName | src/path-utils.ts:71-80 | a profile that is a backend's own name infers that backend |
| PathUtils.InferNestFromItsName | src/path-utils.ts:71-80 | "nest-backend" infers Nest |
| PathUtils.InferExpressFromItsName | src/path-utils.ts:71-80 | "express-backend" infers Express |
| PathUtils.InferSpringFromItsName | src/path-utils.ts:71-80 | "spring-backend" infers Spring |
| PathUtils.FrontendOverrideWins | src/path-utils.ts:41-49 | a non-empty FRONTEND decides the frontend whatever APP_PROFILE says |
| PathUtils.BackendOverrideWins | src/path-utils.ts:82-90 | a non-empty BACKEND decides the backend whatever APP_PROFILE says |
| PathUtils.ProfileSelectsSpringExample | src/path-utils.ts:82-90 | APP_PROFILE=ng-spring alone selects the Spring backend |
| PathUtils.BackendOverrideExample | src/path-utils.ts:82-90 | BACKEND=express with APP_PROFILE=ng-spring selects Express |
| PathUtils.FrontendPriorityExample | src/path-utils.ts:41-49 | APP_PROFILE=vue-react selects the Vue tracker |
| PathUtils.EmptyEnvironmentDefaults | src/path-utils.ts:41-90 | an empty environment selects ng-tracker and nest-backend |
| PathUtils.FirstExistingIndex | src/path-utils.ts:92-100 | the index of the first existing candidate: none before it exists, and it exists unless it is past the end |
| PathUtils.FirstExisting | src/path-utils.ts:92-100 | the answer is one of the candidates, and it exists exactly when some candidate exists (otherwise it is the first) |
| PathUtils.ResolveFirstExistingPath | src/path-utils.ts:92-100 | the loop returns the first existing candidate in list order, or the first candidate when none exists |
| PathUtils.BackendFolders | src/path-utils.ts:120 | one folder per name, resourcesPath joined with the name, in order |
| PathUtils.ResolveBackendFolderInProd | src/path-utils.ts:110-129 | the result is the first existing path among the backend folders followed, when main.js exists there, by resourcesPath itself |
| PathUtils.BackendOrderShape | src/path-utils.ts:110-118 | the ordered names have no duplicates, contain all three backends, and start with the override or else the inferred backend |
| PathUtils.ProdBackendFolderChoice | src/path-utils.ts:110-129 | the candidates are one folder per name plus resourcesPath last only with main.js; when the preferred backend's folder exists it is chosen |
| PathUtils.GetProductionFrontendPath | src/path-utils.ts:147-169 | the loop's candidates are the entries of every frontend in preference order, and the result is the first existing one |
| PathUtils.ProdFrontendStartsWithPreferred | src/path-utils.ts:147-169 | the candidate list begins with the preferred frontend's entries (browser/index.html before index.html for ng-tracker) |
| PathUtils.DevFrontendCandidates | src/path-utils.ts:171-185 | two candidates for every frontend |
| PathUtils.GetDevFrontendPath | src/path-utils.ts:171-185 | the dev entry is the first existing of the selected frontend's two candidates |
| PathUtils.DevFrontendFallback | src/path-utils.ts:181-184 | for Vue and React, a missing dist/<name>/index.html falls back to apps/<name>/dist/<name>/index.html when that exists |
| PathUtils.GetRootBackendFolderPath | src/path-utils.ts:131-145 | outside prod the folder is cwd/dist/<backend>; in prod it is the resolved resources folder |
| Backend.DefaultPort | src/backend.ts:9-18 | the port is "3000" exactly under dev and staging, and "5000" otherwise |
| Backend.ResolveJavaCommand | src/backend.ts:20-28 | the command ends with java (java.exe on win32); a non-empty JAVA_HOME gives exactly `<JAVA_HOME>/bin/java[.exe]`, otherwise it is the bare executable |
| Backend.StartSpringBackend | src/backend.ts:30-52 | the java command of ResolveJavaCommand is spawned with exactly -jar <folder>/app.jar, --server.port=<port> and --spring.profiles.active=<profile>; the port and profile on the command line equal SERVER_PORT and SPRING_PROFILES_ACTIVE in the child's environment, and every other variable reaches the child unchanged |
| Backend.SpringProfileChoice | src/backend.ts:37 | the profile is SPRING_PROFILES_ACTIVE when set (even empty), else NODE_ENV when set, else "prod" |
| Backend.ResolvedPort | src/backend.ts:86-88 | the child's port is never empty: a non-empty PORT, else the environment's default |
| Backend.StartBackend | src/backend.ts:64-113 | the folder is cwd/dist/<backend> outside prod and the resolved resources folder in prod; the launch is the one BackendLaunch describes for that folder; the log writes are, in order, "Starting backend service (<backend>)...", the child environment, "Server path: " with main.js or the jar, and for Spring "Starting Spring backend: " with the command and its arguments |
| Backend.LaunchFrom | src/backend.ts:40-112 | given the folder, the child environment and the port, the launch is the Spring spawn or the fork of <folder>/main.js, and the three or four info log writes come in the source's order with the source's texts |
| Backend.LaunchDispatch | src/backend.ts:105-112 | the child is spawned through java exactly for the Spring backend (with <folder>/app.jar); every other backend is forked from <folder>/main.js |
| Backend.ChildEnvContents | src/backend.ts:90-98 | the child's environment is the process environment plus DATABASE_PATH=<folder>/<database name>, PORT, NODE_ENV, BACKEND and APP_PROFILE, with their stated values |
| Backend.SpringProfileFromStartBackend | src/backend.ts:90-108 | through startBackend the Spring profile is SPRING_PROFILES_ACTIVE when set, else the runtime environment (the "prod" fallback is unreachable), and the port argument is the child's PORT |
| BackendProbe.CheckIfPortIsOpen | src/backend.ts:115-191 | the nested attempt/URL loop produces exactly the result and the event trace (warm-up, probes, delays, close) of the recursive specification, and its log writes are "Checking if ports are open: " with the URLs comma-joined, then each probe's writes in trace order |
| BackendProbe.ProbeEach | src/backend.ts:138-179 | one attempt's loop over the URLs stops at the first 2xx answer and otherwise reaches the end of the URLs, consuming exactly that part of the specified trace and adding each probe's log writes |
| BackendProbe.ProbeLogsShape | src/backend.ts:140-178 | a probe writes "Attempt N: Checking port: <url>"; a response then writes its body and either "Server is ready: <body>" for 2xx or the warning "Server responded with status: <status>"; a network error writes "Attempt N: <description>" to error.log |
| BackendProbe.ProbesFollowEnumeration | src/backend.ts:137-138 | probes happen attempt by attempt and URL by URL in order; a run that never succeeds probes every (attempt, URL) pair |
| BackendProbe.StopsAtFirstOk | src/backend.ts:155-162 | every probe before the last failed, and the run is ready exactly when its last probe answered 2xx |
| BackendProbe.ReadyIffSomeOk | src/backend.ts:137-185 | the loop succeeds exactly when some remaining (attempt, URL) pair answers 2xx |
| BackendProbe.DelaysWhenFailed | src/backend.ts:181-184 | a failed run waits between attempts only, maxAttempts − attempt times |
| BackendProbe.DelaysWhenReady | src/backend.ts:155-184 | a successful run ends with the ok probe and has waited once per attempt before the successful one |
| BackendProbe.NoCloseInAttempts | src/backend.ts:137-185 | the loading window is never closed while attempts remain |
| BackendProbe.CheckIfPortIsOpenReady | src/backend.ts:115-191 | the call succeeds exactly when some probe in attempts 1..maxAttempts answers 2xx, and then the loading window is not closed |
| BackendProbe.CheckIfPortIsOpenFailure | src/backend.ts:131-190 | on failure the trace starts with the 5000 ms warm-up, probes every pair, waits maxAttempts − 1 times, closes the loading window once if there is one, and fails with "Failed to connect to the server after <maxAttempts> attempts" |
| FileUtils.ParseLogLineRoundTrip | src/file-utils.ts:4-7 | a log line reads back as its timestamp, its upper-cased type and its message: the line format "<timestamp> - <TYPE>: <message>\n" is unambiguous |
| FileUtils.FileStore.LogToFile | src/file-utils.ts:4-15 | the directory is created and the line appended to <dir>/<type>.log; a failing mkdir changes nothing, a failing append leaves the files as they were, and neither failure escapes |
| FileUtils.FileStore.ResetLogs | tools/build-profile.ts:49-65 | whatever the unlink calls do, error.log and info.log afterwards exist and are empty, and no directory changes |
| FileUtils.FileStore.EnsureDir | tools/prepare-spring-dist.ts:22-24 | when nothing is at the path, the path and every directory above it are created (recursive mkdir); when a file or a directory is already there nothing changes; files never change |
| FileUtils.FileStore.MakeDirs | src/file-utils.ts:10 | a recursive mkdir adds the path and each directory above it, and changes no file |
| FileUtils.DirChain | src/file-utils.ts:10 | the directories a recursive mkdir creates: the path itself and each of its prefixes ending before a "/", and nothing else |
| FileUtils.EnsuredDirs | tools/prepare-spring-dist.ts:22-24 | the directories only grow, every new one lies on the path's chain, the path exists afterwards unless a file is there, and nothing is added when the path already exists |
| FileUtils.LogsReset | tools/build-profile.ts:49-65 | error.log and info.log exist and are empty, no other file is added, and every other file keeps its contents |
| FileUtils.FileStore.RemoveTree | tools/prepare-spring-dist.ts:61-71 | whatever is at the path, a file or a directory, is removed with every directory and file under it, and nothing else |
| FileUtils.FileStore.CopyFile | tools/prepare-spring-dist.ts:73-75 | the destination holds the source's content and nothing else changes |
| BuildProfile.NormalizeProfile | tools/build-profile.ts:19-22 | an undefined or empty profile becomes "ng-nest"; any other is trimmed and lower-cased |
| BuildProfile.InferFrontendProject | tools/build-profile.ts:24-29 | "vue" anywhere gives the Vue tracker; otherwise "react" gives React; otherwise ng-tracker, in both directions |
| BuildProfile.InferBackendProject | tools/build-profile.ts:31-36 | "express" anywhere gives Express; otherwise "spring" gives Spring; otherwise nest-backend, in both directions |
| BuildProfile.DefaultProfileIsNgNest | tools/build-profile.ts:80-82 | with no APP_PROFILE the build is ng-tracker with nest-backend |
| BuildProfile.BuildAgreesWithLauncher | tools/build-profile.ts:80-82 | without FRONTEND/BACKEND overrides the build script picks the same frontend and backend as the desktop launcher |
| BuildProfile.FrontendBuild | tools/build-profile.ts:88-95 | the command is "pnpm exec nx build <frontend>"; exactly the Angular tracker gets "--configuration production --optimization --base-href ./" appended, and no build gets a working directory or environment of its own |
| BuildProfile.PlainBuildHasNoBaseHref | tools/build-profile.ts:93-95 | the Vue and React build commands do not contain "--base-href ./" |
| BuildProfile.NodeBuildEnv | tools/build-profile.ts:105-112 | the Node build gets the environment with NODE_ENV defaulting to "prod" and PORT to "5000", every other variable unchanged |
| BuildProfile.SpringBuild | tools/build-profile.mjs:54-59 | Spring runs mvn package then the dist preparation; the TypeScript script (tools/build-profile.ts:98-103) runs the Java runtime step third and the .mjs script has no third step |
| BuildProfile.Build | tools/build-profile.ts:79-115 | the commands run are a prefix of the planned ones (frontend build first, then Spring's steps or the Node build and npm install in dist/<backend>); a failing command is the last one run and stops the build with "Command failed: <command>"; otherwise a missing dist/<backend> stops a Node build with "Expected <dir> to exist after build." before npm install; the TypeScript script empties both log files only after a complete Node build; no directory changes |
| BuildProfile.PlannedRuns | tools/build-profile.ts:88-114 | at least three runs: the frontend build, then Spring's steps for the Spring backend, else the Node backend build with its environment followed by npm install --omit=dev in dist/<backend> |
| BuildProfile.Reachable | tools/build-profile.ts:69-75 | every planned run is reached except npm install when a Node backend's dist folder is missing |
| BuildProfile.Run | tools/build-profile.ts:15-17 | the runs made so far are the planned prefix up to this command, which fails exactly when it is the failing one, with "Command failed: <command>" |
| BuildProfile.RunPlanned | tools/build-profile.ts:88-115 | the plan is run in order up to the first failure or the missing dist folder, with the error and the file changes Build states |
| Sorting.Sort | tools/prepare-spring-dist.ts:37 | the jar names come out sorted by code-point order and are a permutation of the input |
| Sorting.SortedUnique | tools/prepare-spring-dist.ts:37 | two sorted arrangements of the same names are equal, so the sort's result depends only on the names |
| Sorting.SortedLastIsMax | tools/prepare-spring-dist.ts:40 | the last element of a sorted list is the greatest |
| PrepareSpringDist.OriginalFilterIsRedundant | tools/prepare-spring-dist.ts:33-34 | a name ending in ".jar" never ends in ".jar.original", so the second filter removes nothing |
| PrepareSpringDist.JarNames | tools/prepare-spring-dist.ts:30-36 | a name is kept exactly when its entry is a file whose lower-cased name ends in .jar and contains neither "sources" nor "javadoc" |
| PrepareSpringDist.PickJar | tools/prepare-spring-dist.ts:26-41 | a jar is picked only from a directory that exists, and the path picked lies inside that directory |
| PrepareSpringDist.PickJarSomeIff | tools/prepare-spring-dist.ts:26-41 | a jar is picked exactly when the directory exists and holds a runnable jar file |
| PrepareSpringDist.PickJarIsGreatest | tools/prepare-spring-dist.ts:37-40 | the picked jar is <targetDir>/<name> for the greatest runnable jar name |
| PrepareSpringDist.PickJarIgnoresListingOrder | tools/prepare-spring-dist.mjs:8-23 | the pick does not depend on the order in which the directory is listed |
| PrepareSpringDist.PrepareDist | tools/prepare-spring-dist.ts:45-94 | the root target is tried before apps/spring-backend/target; with no jar nothing changes and the error names both directories; otherwise dist/spring-backend is ensured, the TypeScript script removes a leftover app/ file or folder (a failed removal only warns), a jar that cannot be copied fails with the copy error, and a copied one fills app.jar with the jar's bytes and, for the TypeScript script, resets both log files; an existing jar is always delivered, and for the .mjs script only app.jar changes |
| PrepareSpringDist.ChosenJarIsNotUnderAppFolder | tools/prepare-spring-dist.ts:45-71 | the jar chosen lies in one of the two target folders, so removing dist/spring-backend/app never removes it |
| PrepareJavaRuntime.TrimAll | tools/prepare-java-runtime.ts:65 | every part is trimmed, in place and order |
| PrepareJavaRuntime.DropEmpty | tools/prepare-java-runtime.ts:66 | exactly the non-empty parts are kept, and a list with no empty part is unchanged |
| PrepareJavaRuntime.AddModules | tools/prepare-java-runtime.ts:68-87 | adding names one by one to the insertion-ordered set gives the first occurrences of deps followed by extra, in order |
| PrepareJavaRuntime.NormalizeModuleDeps | tools/prepare-java-runtime.ts:62-95 | the loop computes the sorted, de-duplicated union of the requested modules and the ten baseline modules, comma-joined |
| PrepareJavaRuntime.RequestedModulesAreClean | tools/prepare-java-runtime.ts:63-66 | every requested module name is non-empty, trimmed and comma-free |
| PrepareJavaRuntime.SortedUnionShape | tools/prepare-java-runtime.ts:68-94 | the union is sorted, has no duplicates and holds exactly the modules of both inputs |
| PrepareJavaRuntime.ReadBackClean | tools/prepare-java-runtime.ts:63-66 | a non-empty list of clean names, comma-joined, splits and parses back to itself |
| PrepareJavaRuntime.SortedUnionStable | tools/prepare-java-runtime.ts:87-94 | adding the baseline again to an already normalised list changes nothing, which is why the second baseline loop (lines 90-92) is dead |
| PrepareJavaRuntime.ModuleListShape | tools/prepare-java-runtime.ts:62-95 | the module list is sorted, duplicate-free, clean, and holds exactly the requested and the baseline modules; every baseline module is always there |
| PrepareJavaRuntime.NormalizedModulesNamesBaseline | tools/prepare-java-runtime.ts:62-95 | the output names a module exactly when jdeps printed it or it is in the baseline |
| PrepareJavaRuntime.NormalizeModuleDepsIdempotent | tools/prepare-java-runtime.ts:62-95 | normalising an already normalised list gives the same list |
| PrepareJavaRuntime.GetBinShape | tools/prepare-java-runtime.ts:41-44 | the tool lies in <javaHome>/bin, is named after the tool and ends in .exe exactly on Windows; jdeps and jlink of one home differ |
| PrepareJavaRuntime.SubDirsMembers | tools/prepare-java-runtime.ts:103-105 | the listed candidates are exactly <dir>/<name> for the directory entries |
| PrepareJavaRuntime.FirstWithToolsIsFirst | tools/prepare-java-runtime.ts:107-119 | the home found holds both tools and no earlier candidate does; nothing is found exactly when no candidate holds both tools |
| PrepareJavaRuntime.FirstSubDirWithTools | tools/prepare-java-runtime.ts:113-115 | the inner loop returns the first second-level directory holding both tools |
| PrepareJavaRuntime.TryResolveExistingJavaHome | tools/prepare-java-runtime.ts:97-125 | the nested search returns the first home holding both tools in the order level-1 directory, then its level-2 directories, or nothing when baseDir is missing |
| PrepareJavaRuntime.ToolHome | tools/prepare-java-runtime.ts:127-133 | the home chosen, JAVA_HOME first and the one found under ./java-runtime second, always holds both tools |
| PrepareJavaRuntime.JavaHomeSearchHasTools | tools/prepare-java-runtime.ts:97-125 | a home found by the search under a base directory holds both tools |
| PrepareJavaRuntime.ResolveToolJavaHome | tools/prepare-java-runtime.ts:127-139 | the result is the chosen home (JAVA_HOME when it holds both tools, else the JDK found under ./java-runtime), or the toolchain error when there is none; any home returned holds both tools, so the re-check of the found home never rejects it |
| PrepareJavaRuntime.PrepareRuntime | tools/prepare-java-runtime.ts:143-189 | a missing jar or toolchain fails with its message and changes nothing; otherwise dist/java-runtime is emptied and created, jdeps runs on the jar, and jlink builds dist/java-runtime/runtime from the normalised module list |
| PrepareJavaRuntime.BuildImage | tools/prepare-java-runtime.ts:151-187 | every file and directory under dist/java-runtime is removed when it exists, the folder is created, and the runs are jdeps on the jar then jlink into dist/java-runtime/runtime with the normalised module list |
| PrepareJavaRuntime.ResetOutRoot | tools/prepare-java-runtime.ts:151-157 | whatever was at or under dist/java-runtime is removed when it exists, and then the folder exists with the directories above it |
| PrepareJavaRuntime.RunTools | tools/prepare-java-runtime.ts:159-185 | jdeps runs on the jar, then jlink with the module list normalised from jdeps' output into <outRoot>/runtime |
| Frontend.WindowManager.constructor | src/frontend.ts:15-16 | both window slots start empty and nothing is logged |
| Frontend.WindowManager.CreateLoadingWindow | src/frontend.ts:18-63 | a held loading window is returned unchanged; otherwise a fresh frameless window loads the dev server URL or the bundled renderer page and is held; a throw logs the error to error.log and yields null, leaving the half-made window in the slot when the load threw |
| Frontend.WindowManager.LoadingWindowClosed | src/frontend.ts:46-48 | closing the loading window empties its slot exactly when its handler was registered |
| Frontend.NewMainWindow | src/frontend.ts:70-104 | the new main window loads the first existing production entry without devtools, or else the dev entry with devtools open; the production path is always logged to info.log and the dev path too on the fallback; a `closed` handler is registered |
| Frontend.WindowManager.CreateWindow | src/frontend.ts:65-107 | a held main window is returned unchanged and nothing is logged; otherwise the window `Frontend.NewMainWindow` describes is held and its lines are appended to the log |
| Frontend.WindowManager.MainWindowClosed | src/frontend.ts:102-104 | closing the main window empties its slot |
| WithEnv.ParseArgs | tools/with-env.ts:125-187 | the argument loop computes the parse outcome of the recursive definition: flags fill the record, `--` ends flags and the rest is the command, help stops, an unknown argument or a missing value is fatal |
| WithEnv.ParseFrom | tools/with-env.ts:125-187 | a fatal parse says "Missing value for" a flag or "Unknown argument"; the extra files only grow; the command is empty or is exactly what follows a `--` in the arguments |
| WithEnv.ParseOneFlag | tools/with-env.ts:137-168 | one well-formed flag moves the cursor past its tokens and records its meaning |
| WithEnv.ParseRenderedFrom | tools/with-env.ts:170-184 | parsing a rendered run of well-formed flags applies each flag's meaning in order |
| WithEnv.ParseRoundTrip | tools/with-env.ts:125-187 | rendering flags, `--` and a command and parsing them gives back exactly those flags' meanings and that command |
| WithEnv.ParseWithoutCommand | tools/with-env.ts:125-187 | rendered flags without `--` parse to their meanings with an empty command |
| WithEnv.UnknownArgumentIsFatal | tools/with-env.ts:178-181 | after any well-formed flags, a token that is no known flag stops the parse with "Unknown argument" |
| WithEnv.MissingValueIsFatal | tools/with-env.ts:137-144 | a value flag with nothing, or an empty string, after it stops the parse with "Missing value for" the flag |
| WithEnv.BackendLastWinsFilesInOrder | tools/with-env.ts:156-167 | of several backend flags the last one wins, and the file flags' paths are appended in the order given |
| WithEnv.InheritedHandlerLoops | tools/with-env.ts:178-183 | as written, the argument "constructor" finds an inherited handler that maps the parse state to itself, so the loop never ends, and "valueOf" ends in an uncaught TypeError; looking up own keys only, both are unknown arguments |
| WithEnv.BaseFiles | tools/with-env.ts:21-24 | exactly the profiles dev and prod are known, and each has the one base file envs/.env.<profile> |
| WithEnv.ProfileEntry | tools/with-env.ts:198-199 | the profile table finds its own entry exactly for a known profile; as written it also finds an inherited member for an inherited name, and with own keys only it never does |
| WithEnv.BackendEntry | tools/with-env.ts:208-209 | the backend table finds its own entry exactly for a known short name; as written it also finds an inherited member for an inherited name, and with own keys only it never does |
| WithEnv.ResolveRepoPath | tools/with-env.ts:69-73 | an empty path stays empty, an absolute path is kept, and a relative one is taken from the working directory |
| WithEnv.BackendFullName | tools/with-env.ts:27-31 | exactly nest, express and spring are known backends, each mapped to "<name>-backend", both directions |
| WithEnv.EnvFileList | tools/with-env.ts:203-220 | the env files are exactly the base files, then envs/.env.<profile>.local exactly when that file exists, then envs/.env.local exactly when that file exists, then the extra files in argument order |
| WithEnv.ResolveAll | tools/with-env.ts:222 | no resolved path is empty, and when no listed path is empty each one is resolved against the working directory, in place and order |
| WithEnv.EnvCmdArgList | tools/with-env.ts:235-240 | env-cmd receives "-f <file>" per resolved file, then `--`, then the command |
| WithEnv.BuildEnvCmdArgs | tools/with-env.ts:235-240 | the argument-building loop produces that list |
| WithEnv.RelativeBinPath | tools/with-env.ts:101-108 | a string bin field is used as is; a table's "env-cmd" entry, else its first entry; no bin field gives nothing |
| WithEnv.ExitCode | tools/with-env.ts:266-274 | a signal exits with 1, otherwise the child's code, or 1 when there is none |
| WithEnv.LayerEnvFiles | tools/with-env.ts:203-220 | the layering steps build the env file list |
| WithEnv.FirstMissing | tools/with-env.ts:223-227 | the check loop reports the first resolved file that does not exist, as FirstAbsent defines it |
| WithEnv.FirstAbsent | tools/with-env.ts:223-227 | nothing is reported exactly when every file exists; otherwise the file reported is missing and every file before it exists |
| WithEnv.EnvCmdBin | tools/with-env.ts:87-120 | a missing env-cmd package fails with the install hint; a missing or empty bin entry fails with "Could not locate env-cmd binary"; otherwise the bin path resolved against the package folder is returned exactly when that file exists, and the error names that path when it does not |
| WithEnv.RunParsed | tools/with-env.ts:192-256 | the script after parsing produces exactly the outcome of the run specification with the tables looked up by their own keys |
| WithEnv.RunWithEnv | tools/with-env.ts:192-196 | help and parse errors end the script before anything else, with the parser's message; a successful parse runs as the run specification says |
| WithEnv.RunSpecFailures | tools/with-env.ts:192-233 | each failed check ends the script with its own message, in the script's order: no profile, unknown profile, unknown backend, the first missing env file, no command, env-cmd not found |
| WithEnv.RunSpecRuns | tools/with-env.ts:233-256 | when every check holds, a dry run prints the resolved env files and the command, and otherwise node runs env-cmd with "-f" per file, `--` and the command, with BACKEND set to the full backend name when one was given |
| WithEnv.RunSpecRunsOnlyWhenRunnable | tools/with-env.ts:192-256 | conversely, a plan is printed or env-cmd spawned only when every check holds, and the own-keys lookup never crashes |
| WithEnv.LookupsAgreeElsewhere | tools/with-env.ts:198-215 | away from inherited names the lookup as written and the own-keys lookup give the same outcome |
| WithEnv.InheritedProfileCrashes | tools/with-env.ts:198-203 | as written, a profile naming an inherited member passes the unknown-profile check and the spread of what it finds throws; with own keys only it is an unknown profile |
| WithEnv.InheritedBackendIsAccepted | tools/with-env.ts:208-215 | as written, a backend override naming an inherited member is accepted and BACKEND is set to that member's text, such as "function Object() { [native code] }" |
| WithEnv.InheritedBackendIsUnknown | tools/with-env.ts:208-214 | with own keys only, the same override is fatal with "Unknown backend" |
| WithEnv.ConstructorBackendCommandLine | tools/with-env.ts:125-187 | `--profile dev --be constructor -- node x` parses to profile dev, backend "constructor" and the command node x |
| ForgeConfig.ResolvedFolders | forge.config.mjs:74 | a profile in the table packages its own folders; any other packages the "ng-nest" folders |
| ForgeConfig.Paths | forge.config.mjs:15-70 | each folder becomes its "./dist/<name>" path, in order |
| ForgeConfig.ProfileShape | forge.config.mjs:12-72 | every table entry lists frontend folders first and ends with a backend folder, and has at least two folders |
| ForgeConfig.ExtraResourceShape | forge.config.mjs:74-79 | whatever APP_PROFILE holds, the resources shipped start with a frontend folder and end with a backend folder |
| ForgeConfig.DefaultPackagesNgNest | forge.config.mjs:10 | without APP_PROFILE (or with an empty one) the Angular app and the Nest backend are packaged |
| ForgeConfig.ComboResources | forge.config.mjs:14-60 | each of the nine frontend/backend combinations packages exactly its frontend's folder, then its backend's |
| ForgeConfig.AllPackagesNodeBackendsOnly | forge.config.mjs:63-71 | "all" packages the three frontends and the Nest and Express backends, and not the Spring backend |
| ForgeConfig.BuiltIsPackaged | forge.config.mjs:12-60 | for every combination profile, the build script infers the same frontend and backend that are packaged |
| ForgeConfig.ComboIsCanonical | forge.config.mjs:10 | combination names are already trimmed and lower-case, so normalising them changes nothing |
| ForgeConfig.ConstructorProfileShipsNothing | forge.config.mjs:74-79 | as written, APP_PROFILE=constructor finds an inherited object property, skips the "ng-nest" fallback and packages no resource; the corrected lookup packages ng-nest |
| ForgeConfig.AsWrittenAgreesElsewhere | forge.config.mjs:74 | except for the two inherited property names, the lookup as written agrees with the corrected one |
| ForgeConfig.NgInferred | tools/build-profile.ts:24-29 | the build infers the Angular tracker from each "ng-" combination name |
| ForgeConfig.VueInferred | tools/build-profile.ts:24-29 | the build infers the Vue tracker from each "vue-" combination name |
| ForgeConfig.ReactInferred | tools/build-profile.ts:24-29 | the build infers the React tracker from each "react-" combination name |
| ForgeConfig.NestInferred | tools/build-profile.ts:31-36 | the build infers the Nest backend from each "-nest" combination name |
| ForgeConfig.ExpressInferred | tools/build-profile.ts:31-36 | the build infers the Express backend from each "-express" combination name |
| ForgeConfig.SpringInferred | tools/build-profile.ts:31-36 | the build infers the Spring backend from each "-spring" combination name |
| DatabaseExceptionHelper.WrapOperation | apps/spring-backend/src/main/java/com/wodendev/springbackend/exception/DatabaseExceptionHelper.java:9-21 | the operation and the cause are kept; the code is the connection-failure code, the lock code or the caller's default, and the default whenever the message names neither |
| DatabaseExceptionHelper.SchemaInvalid | apps/spring-backend/src/main/java/com/wodendev/springbackend/exception/DatabaseExceptionHelper.java:23-25 | a schema failure carries DB_SCHEMA_INVALID, the database path and the message |
| DatabaseExceptionHelper.MigrationFailed | apps/spring-backend/src/main/java/com/wodendev/springbackend/exception/DatabaseExceptionHelper.java:27-29 | a migration failure carries DB_MIGRATION_FAILED, the database path and the message |
| DatabaseExceptionHelper.ClassificationPriority | apps/spring-backend/src/main/java/com/wodendev/springbackend/exception/DatabaseExceptionHelper.java:14-20 | a connection failure wins over a lock; a lock alone gives DB_LOCKED |
| DatabaseExceptionHelper.NullMessageKeepsDefault | apps/spring-backend/src/main/java/com/wodendev/springbackend/exception/DatabaseExceptionHelper.java:34 | a null inspected message keeps the caller's code |
| DatabaseExceptionHelper.ClassificationIgnoresCase | apps/spring-backend/src/main/java/com/wodendev/springbackend/exception/DatabaseExceptionHelper.java:35-51 | messages equal up to case get the same code |
| DatabaseExceptionHelper.CauseMessageDecides | apps/spring-backend/src/main/java/com/wodendev/springbackend/exception/DatabaseExceptionHelper.java:32-33 | with a most specific cause, the exception's own message plays no part |
| DatabaseExceptionHelper.InitializationCodesAreDistinct | apps/spring-backend/src/main/java/com/wodendev/springbackend/exception/DatabaseExceptionHelper.java:23-29 | the schema and migration codes differ from each other and from the two classified codes |
| GlobalExceptionHandler.NextCause | apps/spring-backend/src/main/java/com/wodendev/springbackend/exception/GlobalExceptionHandler.java:143-144 | the next step goes to a cause that is in the heap and differs from the current exception |
| GlobalExceptionHandler.WalkAsWritten | apps/spring-backend/src/main/java/com/wodendev/springbackend/exception/GlobalExceptionHandler.java:141-147 | n turns of the loop as written stay inside the heap |
| GlobalExceptionHandler.RootFrom | apps/spring-backend/src/main/java/com/wodendev/springbackend/exception/GlobalExceptionHandler.java:141-147 | the walk that stops on a repeat ends inside the heap |
| GlobalExceptionHandler.RootCauseOf | apps/spring-backend/src/main/java/com/wodendev/springbackend/exception/GlobalExceptionHandler.java:141-147 | the root cause is an exception of the heap |
| GlobalExceptionHandler.RootCause | apps/spring-backend/src/main/java/com/wodendev/springbackend/exception/GlobalExceptionHandler.java:141-147 | the loop, guarded against cycles, computes the root cause |
| GlobalExceptionHandler.RootFromIsCurrentOrNew | apps/spring-backend/src/main/java/com/wodendev/springbackend/exception/GlobalExceptionHandler.java:141-147 | the walk ends on the current exception or on one not yet visited |
| GlobalExceptionHandler.RootIsSelfIff | apps/spring-backend/src/main/java/com/wodendev/springbackend/exception/GlobalExceptionHandler.java:110-114 | the root cause is the exception itself exactly when it has no distinct cause, which is when the rootCause entries are left out |
| GlobalExceptionHandler.WalkAdd | apps/spring-backend/src/main/java/com/wodendev/springbackend/exception/GlobalExceptionHandler.java:143-145 | a + b turns of the loop are a turns followed by b turns |
| GlobalExceptionHandler.WalkStopped | apps/spring-backend/src/main/java/com/wodendev/springbackend/exception/GlobalExceptionHandler.java:143 | once the loop has stopped, further turns stay put |
| GlobalExceptionHandler.WalkStep | apps/spring-backend/src/main/java/com/wodendev/springbackend/exception/GlobalExceptionHandler.java:144 | one more turn follows the cause |
| GlobalExceptionHandler.WalkDistinct | apps/spring-backend/src/main/java/com/wodendev/springbackend/exception/GlobalExceptionHandler.java:141-147 | when the loop as written stops after n turns, the exceptions it visited are pairwise different |
| GlobalExceptionHandler.RootFromFollowsWalk | apps/spring-backend/src/main/java/com/wodendev/springbackend/exception/GlobalExceptionHandler.java:141-147 | on a chain that ends, the cycle-guarded walk follows the loop as written turn by turn |
| GlobalExceptionHandler.RootCauseAgreesWhenLoopEnds | apps/spring-backend/src/main/java/com/wodendev/springbackend/exception/GlobalExceptionHandler.java:141-147 | whenever the loop as written stops, it returns the root cause, which has no further cause |
| GlobalExceptionHandler.MutualCauses | apps/spring-backend/src/main/java/com/wodendev/springbackend/exception/GlobalExceptionHandler.java:141-147 | two exceptions that are each other's cause form a closed heap |
| GlobalExceptionHandler.MutualWalkStaysOnCycle | apps/spring-backend/src/main/java/com/wodendev/springbackend/exception/GlobalExceptionHandler.java:143-145 | the loop as written never leaves such a cycle |
| GlobalExceptionHandler.MutualCausesNeverStop | apps/spring-backend/src/main/java/com/wodendev/springbackend/exception/GlobalExceptionHandler.java:143-145 | as written, the loop never stops on such a cycle: after any number of turns there is still a distinct cause |
| GlobalExceptionHandler.MutualCausesRoot | apps/spring-backend/src/main/java/com/wodendev/springbackend/exception/GlobalExceptionHandler.java:141-147 | the cycle-guarded walk ends on the last exception before the repeat |
| GlobalExceptionHandler.TraceLimit | apps/spring-backend/src/main/java/com/wodendev/springbackend/exception/GlobalExceptionHandler.java:151 | the number of lines is min(frames, max(0, maxLines)) |
| GlobalExceptionHandler.SuffixIsOneLine | apps/spring-backend/src/main/java/com/wodendev/springbackend/exception/GlobalExceptionHandler.java:156-158 | the "... N more" suffix holds no line break |
| GlobalExceptionHandler.ShortStackTrace | apps/spring-backend/src/main/java/com/wodendev/springbackend/exception/GlobalExceptionHandler.java:149-160 | the loop appends one "at" line per kept frame, then the suffix when frames were cut |
| GlobalExceptionHandler.AtLines | apps/spring-backend/src/main/java/com/wodendev/springbackend/exception/GlobalExceptionHandler.java:154 | each frame becomes its "at <frame>" line, in order |
| GlobalExceptionHandler.SplitFrameLines | apps/spring-backend/src/main/java/com/wodendev/springbackend/exception/GlobalExceptionHandler.java:153-155 | the appended lines split back into the "at" lines followed by the suffix's lines |
| GlobalExceptionHandler.ShortTraceLines | apps/spring-backend/src/main/java/com/wodendev/springbackend/exception/GlobalExceptionHandler.java:149-160 | read back line by line, the trace is one "at" line per kept frame in order, then an empty last line, or "... N more" with N the frames left out |
| GlobalExceptionHandler.IsDevProfile | apps/spring-backend/src/main/java/com/wodendev/springbackend/exception/GlobalExceptionHandler.java:124-139 | the dev profile is active exactly when the environment is readable and one of its active profiles equals "dev" ignoring case |
| GlobalExceptionHandler.Keys | apps/spring-backend/src/main/java/com/wodendev/springbackend/exception/GlobalExceptionHandler.java:97 | the keys of the ordered body, one per entry and in insertion order |
| GlobalExceptionHandler.GetAppend | apps/spring-backend/src/main/java/com/wodendev/springbackend/exception/GlobalExceptionHandler.java:97 | a lookup in two bodies joined finds the first one's entry when it has the key, else the second's |
| GlobalExceptionHandler.PutSpec | apps/spring-backend/src/main/java/com/wodendev/springbackend/exception/GlobalExceptionHandler.java:97-104 | a put sets the key's value, keeps every other key's value, and appends the key only when it is new |
| GlobalExceptionHandler.PutNewKey | apps/spring-backend/src/main/java/com/wodendev/springbackend/exception/GlobalExceptionHandler.java:97-104 | putting a new key appends an entry |
| GlobalExceptionHandler.PutAllNewKeys | apps/spring-backend/src/main/java/com/wodendev/springbackend/exception/GlobalExceptionHandler.java:106-108 | putting distinct new entries appends them in order |
| GlobalExceptionHandler.Status | apps/spring-backend/src/main/java/com/wodendev/springbackend/exception/GlobalExceptionHandler.java:28-76 | the status is 400 exactly for an illegal argument and 500 for every other handler |
| GlobalExceptionHandler.ExtraKeysAreOwn | apps/spring-backend/src/main/java/com/wodendev/springbackend/exception/GlobalExceptionHandler.java:44-47 | the extras hold only errorCode, operation and databasePath, each at most once |
| GlobalExceptionHandler.PutNew | apps/spring-backend/src/main/java/com/wodendev/springbackend/exception/GlobalExceptionHandler.java:97-104 | putting a new key appends it |
| GlobalExceptionHandler.BaseBody | apps/spring-backend/src/main/java/com/wodendev/springbackend/exception/GlobalExceptionHandler.java:97-104 | the base body holds timestamp, status, error, path, method, exception and message, in that order |
| GlobalExceptionHandler.BodyWithCause | apps/spring-backend/src/main/java/com/wodendev/springbackend/exception/GlobalExceptionHandler.java:97-114 | the body is the base entries, then the handler's extras, then the root cause entries when the root is not the exception itself, and never a trace |
| GlobalExceptionHandler.HandleException | apps/spring-backend/src/main/java/com/wodendev/springbackend/exception/GlobalExceptionHandler.java:28-122 | each handler answers its status with the base entries, its extras (in an order the model fixes, see Left out), the root cause entries and, under the dev profile, the short trace of 25 frames |
| Schema.ResolveDatabasePath | apps/spring-backend/src/main/java/com/wodendev/springbackend/service/Schema.java:107-117 | a non-blank DATABASE_PATH wins; otherwise the file of a jdbc:sqlite: URL, so that prefix plus the path gives the URL back; otherwise "unknown" |
| Schema.ResolveDatabasePathOfSqliteUrl | apps/spring-backend/src/main/java/com/wodendev/springbackend/service/Schema.java:112-115 | without DATABASE_PATH, the URL "jdbc:sqlite:<file>" resolves to exactly <file> |
| Schema.LookupNamesAreLowerCase | apps/spring-backend/src/main/java/com/wodendev/springbackend/service/Schema.java:75-79 | the names looked up are the lower-cased forms of the column spellings |
| Schema.NameSet | apps/spring-backend/src/main/java/com/wodendev/springbackend/service/Schema.java:71-76 | the set holds exactly the lower-cased non-null column names |
| Schema.DetectColumn | apps/spring-backend/src/main/java/com/wodendev/springbackend/service/Schema.java:78-79 | the camelCase column is chosen when the table has it in any case, else the snake_case one, else none, each case in both directions |
| Schema.AddMissing | apps/spring-backend/src/main/java/com/wodendev/springbackend/service/Schema.java:81-101 | a found column is kept; a missing one is added under its camelCase name; a failed ALTER stops SQLite with DB_MIGRATION_FAILED naming the column and leaves other databases without the column |
| Schema.Detect | apps/spring-backend/src/main/java/com/wodendev/springbackend/service/Schema.java:38-104 | a table that already has both camelCase columns is accepted as it is, whatever the ALTER statements would do; the CREATE TABLE exception is passed on unchanged only outside SQLite |
| Schema.CamelPreferred | apps/spring-backend/src/main/java/com/wodendev/springbackend/service/Schema.java:78-79 | when the table has the camelCase spelling, it is the one used even if the snake_case one is also there |
| Schema.MissingColumnIsAdded | apps/spring-backend/src/main/java/com/wodendev/springbackend/service/Schema.java:81-101 | a column missing in both spellings is added as camelCase when the ALTER succeeds; a failed ALTER is fatal on SQLite and leaves the column unset elsewhere |
| Schema.OtherDatabasesOnlyFailOnCreate | apps/spring-backend/src/main/java/com/wodendev/springbackend/service/Schema.java:38-69 | outside SQLite start-up fails exactly when CREATE TABLE fails, and with that exception |
| Schema.SqliteFailuresCarryPath | apps/spring-backend/src/main/java/com/wodendev/springbackend/service/Schema.java:50-101 | on SQLite every failure carries the schema or migration code and the database path, and a successful start has both columns |
| Schema.ColumnsAreKnownNames | apps/spring-backend/src/main/java/com/wodendev/springbackend/service/Schema.java:78-104 | every column kept is one of the two spellings, and a snake_case one only when the table has it |
| Schema.SchemaBean.constructor | apps/spring-backend/src/main/java/com/wodendev/springbackend/service/Schema.java:24-29 | the column fields start null and the SQLite flag false |
| Schema.SchemaBean.AfterPropertiesSet | apps/spring-backend/src/main/java/com/wodendev/springbackend/service/Schema.java:31-36 | the SQLite flag follows the URL prefix; then the table is created and the columns detected, ending in the detection's failure or columns |
| Schema.SchemaBean.EnsureTasksTableExists | apps/spring-backend/src/main/java/com/wodendev/springbackend/service/Schema.java:38-56 | start-up goes on exactly when CREATE TABLE succeeds; otherwise it fails with DB_SCHEMA_INVALID on SQLite or the original exception elsewhere |
| Schema.SchemaBean.DetectAndMigrateColumns | apps/spring-backend/src/main/java/com/wodendev/springbackend/service/Schema.java:58-105 | the column fields are set to the detected or added columns, or the migration fails as the detection says |
| TaskService.Wrap32 | apps/spring-backend/src/main/java/com/wodendev/springbackend/service/TaskService.java:183 | the result is a Java int, equal to the input when that fits and congruent to it modulo 2^32 |
| TaskService.ServiceAgreesWithBean | apps/spring-backend/src/main/java/com/wodendev/springbackend/service/TaskService.java:48-136 | without DATABASE_PATH the service's schema load detects the same columns and failures as the start-up bean |
| TaskService.DatabasePathMakesServiceStricter | apps/spring-backend/src/main/java/com/wodendev/springbackend/service/TaskService.java:274-282 | with DATABASE_PATH set and no SQLite URL, a failed ALTER leaves the bean without the column while the service stops with DB_MIGRATION_FAILED, because the service also counts DATABASE_PATH as SQLite |
| TaskService.NameSetSnoc | apps/spring-backend/src/main/java/com/wodendev/springbackend/service/TaskService.java:93-101 | the names seen after one more row are the earlier ones plus that row's lower-cased name |
| TaskService.ScanColumns | apps/spring-backend/src/main/java/com/wodendev/springbackend/service/TaskService.java:88-101 | each of the four flags is set exactly when some column name equals it ignoring case |
| TaskService.WithId | apps/spring-backend/src/main/java/com/wodendev/springbackend/service/TaskService.java:155-157 | a task without an id gets the fresh UUID, one with an id keeps it, and the other fields are untouched |
| TaskService.InsertColumnsMatchValues | apps/spring-backend/src/main/java/com/wodendev/springbackend/service/TaskService.java:160-169 | the INSERT names as many columns as values: four placeholders, then CURRENT_TIMESTAMP once for each timestamp column the table has |
| TaskService.BuildInsert | apps/spring-backend/src/main/java/com/wodendev/springbackend/service/TaskService.java:160-169 | the builders produce those column and value lists |
| TaskService.NormalizePage | apps/spring-backend/src/main/java/com/wodendev/springbackend/service/TaskService.java:181 | a missing or non-positive page becomes 1, any other is kept |
| TaskService.NormalizeLimit | apps/spring-backend/src/main/java/com/wodendev/springbackend/service/TaskService.java:182 | a missing or non-positive limit becomes 10, any other is kept |
| TaskService.Offset | apps/spring-backend/src/main/java/com/wodendev/springbackend/service/TaskService.java:183 | the offset is non-negative and skips exactly the earlier pages |
| TaskService.OffsetAsWrittenWhileItFits | apps/spring-backend/src/main/java/com/wodendev/springbackend/service/TaskService.java:181-183 | while the product fits in an int, the 32-bit offset as written is the true one |
| TaskService.OffsetAsWrittenGoesNegative | apps/spring-backend/src/main/java/com/wodendev/springbackend/service/TaskService.java:183 | as written, page 214748366 with limit 10 gives the offset -2147483646, where 2147483650 is meant |
| TaskService.SearchPattern | apps/spring-backend/src/main/java/com/wodendev/springbackend/service/TaskService.java:190-198 | there is a filter exactly when the trimmed search is not empty, and then it is "%" + trimmed search + "%" |
| TaskService.TrimmedAwaySearchIsIgnored | apps/spring-backend/src/main/java/com/wodendev/springbackend/service/TaskService.java:190 | a search made only of characters trim removes does not filter |
| TaskService.OrderColumn | apps/spring-backend/src/main/java/com/wodendev/springbackend/service/TaskService.java:204-211 | rows are ordered by the createdAt column when there is one, else the updatedAt column, else id |
| TaskService.QueriesShareTheFilter | apps/spring-backend/src/main/java/com/wodendev/springbackend/service/TaskService.java:187-215 | the count and the row query bind the same pattern exactly when there is one, and the row query ends with the limit and a non-negative offset |
| TaskService.PageQueries | apps/spring-backend/src/main/java/com/wodendev/springbackend/service/TaskService.java:200-220 | the count runs first; the rows run only when it succeeds, with the page size and the corrected offset `Offset` of the Findings row; either failure becomes TASK_QUERY_FAILED, otherwise the page holds the rows, the zero-based page index, the size and the total |
| TaskService.RunPageQueries | apps/spring-backend/src/main/java/com/wodendev/springbackend/service/TaskService.java:200-220 | the two queries run as PageQueries says, binding the filter, the page size and the corrected offset |
| TaskService.FindOneOutcome | apps/spring-backend/src/main/java/com/wodendev/springbackend/service/TaskService.java:223-231 | the result is the first row, or empty exactly when no row matched; a failure becomes TASK_QUERY_FAILED for findOne |
| TaskService.UpdateOutcome | apps/spring-backend/src/main/java/com/wodendev/springbackend/service/TaskService.java:233-243 | the UPDATE runs first; a failure becomes TASK_UPDATE_FAILED; no updated row gives empty without a second query; otherwise findOne's outcome |
| TaskService.UpdateWritesOnlyData | apps/spring-backend/src/main/java/com/wodendev/springbackend/service/TaskService.java:236-238 | the UPDATE never writes the body's id and binds the path id last |
| TaskService.TaskService.constructor | apps/spring-backend/src/main/java/com/wodendev/springbackend/service/TaskService.java:31-35 | the service starts with its properties and no cached schema |
| TaskService.CacheAfter | apps/spring-backend/src/main/java/com/wodendev/springbackend/service/TaskService.java:37-46 | the cache after `schema()`: an existing cache is kept; otherwise it holds the loaded columns exactly when the load succeeded |
| TaskService.CacheIsSticky | apps/spring-backend/src/main/java/com/wodendev/springbackend/service/TaskService.java:37-46 | once a load has succeeded, every later `schema()` yields those columns and leaves the cache as it is, whatever the database answers |
| TaskService.TaskService.GetSchema | apps/spring-backend/src/main/java/com/wodendev/springbackend/service/TaskService.java:37-46 | a cached schema is reused; otherwise the load runs and a successful result is cached, a failure is not; the new cache is CacheAfter |
| TaskService.TaskService.LoadSchema | apps/spring-backend/src/main/java/com/wodendev/springbackend/service/TaskService.java:48-136 | the load detects the columns or fails as the schema specification says, counting DATABASE_PATH as SQLite |
| TaskService.TaskService.Create | apps/spring-backend/src/main/java/com/wodendev/springbackend/service/TaskService.java:150-178 | a null task is an illegal argument; otherwise the task gets its id, the INSERT names the schema's timestamp columns, and a failure becomes TASK_CREATE_FAILED; for a task the cache is left as CacheAfter says, so columns loaded here are kept |
| TaskService.TaskService.FindAll | apps/spring-backend/src/main/java/com/wodendev/springbackend/service/TaskService.java:180-221 | page and limit are normalised, a schema failure stops the request, and the two queries run as PageQueries says, with the corrected offset rather than the wrapped `int` product; the cache is left as CacheAfter says |
| TaskService.TaskService.FindOne | apps/spring-backend/src/main/java/com/wodendev/springbackend/service/TaskService.java:223-231 | one SELECT by id, with the findOne outcome |
| TaskService.TaskService.Update | apps/spring-backend/src/main/java/com/wodendev/springbackend/service/TaskService.java:233-243 | after the schema, the UPDATE and its follow-up run as the update specification says; the cache is left as CacheAfter says |
| TaskService.TaskService.ApplyUpdate | apps/spring-backend/src/main/java/com/wodendev/springbackend/service/TaskService.java:233-243 | the update steps give the update specification's outcome and statements |
| TaskService.TaskService.Remove | apps/spring-backend/src/main/java/com/wodendev/springbackend/service/TaskService.java:245-253 | one DELETE by id, true exactly when a row was removed, or TASK_DELETE_FAILED |
| TaskService.TaskService.RemoveByName | apps/spring-backend/src/main/java/com/wodendev/springbackend/service/TaskService.java:255-262 | one DELETE by text, answering the number of rows removed, or TASK_DELETE_FAILED |
| DataSourceConfig.FirstExisting | apps/spring-backend/src/main/java/com/wodendev/springbackend/config/DataSourceConfig.java:83-85 | the first existing path in order, or nothing exactly when none exists |
| DataSourceConfig.AbsoluteCandidates | apps/spring-backend/src/main/java/com/wodendev/springbackend/config/DataSourceConfig.java:76-84 | the four repo-root candidates, each made absolute, in order |
| DataSourceConfig.Select | apps/spring-backend/src/main/java/com/wodendev/springbackend/config/DataSourceConfig.java:24-112 | a SQLite selection uses the SQLite driver without credentials; every error is DB_FILE_NOT_FOUND or DB_PERMISSION_DENIED, and DB_FILE_NOT_FOUND only arises from a DATABASE_PATH |
| DataSourceConfig.DatabasePathWins | apps/spring-backend/src/main/java/com/wodendev/springbackend/config/DataSourceConfig.java:28-65 | a non-blank DATABASE_PATH decides alone, whatever the configured URL, and names the absolute path in the SQLite URL |
| DataSourceConfig.DatabasePathFailures | apps/spring-backend/src/main/java/com/wodendev/springbackend/config/DataSourceConfig.java:29-64 | a missing file in a missing directory is DB_FILE_NOT_FOUND; a missing file in an unwritable directory, or a file not both readable and writable, is DB_PERMISSION_DENIED; each error names the path; otherwise a SQLite datasource on that path |
| DataSourceConfig.SqliteUrlIsUsedVerbatim | apps/spring-backend/src/main/java/com/wodendev/springbackend/config/DataSourceConfig.java:67-73 | without DATABASE_PATH, a configured SQLite URL is used as it is |
| DataSourceConfig.CandidatesThenFallback | apps/spring-backend/src/main/java/com/wodendev/springbackend/config/DataSourceConfig.java:75-111 | otherwise the first existing candidate is used when it is readable and writable and refused when not; with none, the configured URL or the H2 default, with the SQLite flag off |
| DataSourceConfig.FlagMatchesUrl | apps/spring-backend/src/main/java/com/wodendev/springbackend/config/DataSourceConfig.java:23-112 | the SQLite flag is on exactly when the chosen URL is a SQLite URL |
| DataSourceConfig.TaskServiceSqliteIsSqlite | apps/spring-backend/src/main/java/com/wodendev/springbackend/config/DataSourceConfig.java:23-112 | every configuration the task service calls SQLite gets a SQLite datasource |
| DataSourceConfig.FoundFileIsSqliteOnlyToTheDataSource | apps/spring-backend/src/main/java/com/wodendev/springbackend/config/DataSourceConfig.java:83-99 | a database file found in the working directory gives a SQLite datasource while the task service does not count it as SQLite |
| DataSourceConfig.NearestCandidateFound | apps/spring-backend/src/main/java/com/wodendev/springbackend/config/DataSourceConfig.java:75-99 | without a DATABASE_PATH or a SQLite URL, a readable and writable database.sqlite3 in the working directory is the SQLite datasource |
| DataSourceConfig.FirstExistingAt | apps/spring-backend/src/main/java/com/wodendev/springbackend/config/DataSourceConfig.java:83-85 | the candidate at the first existing index is the one chosen |
| DataSourceConfig.DataSourceConfiguration.constructor | apps/spring-backend/src/main/java/com/wodendev/springbackend/config/DataSourceConfig.java:21 | the SQLite flag starts off |
| DataSourceConfig.DataSourceConfiguration.DataSource | apps/spring-backend/src/main/java/com/wodendev/springbackend/config/DataSourceConfig.java:23-112 | the datasource or the error of the selection, with the flag set from the selection on success and left unchanged on an error |
| DataSourceConfig.DataSourceConfiguration.DatabasePlatform | apps/spring-backend/src/main/java/com/wodendev/springbackend/config/DataSourceConfig.java:114-122 | the SQLite dialect is set exactly when the flag is on |
| DataSourceConfig.FindCandidate | apps/spring-backend/src/main/java/com/wodendev/springbackend/config/DataSourceConfig.java:83-100 | the candidate loop finds the first existing candidate |
| TaskController.TotalPages | apps/spring-backend/src/main/java/com/wodendev/springbackend/controller/TaskController.java:38 | the smallest page count whose pages hold every row |
| TaskController.PagesBetween | apps/spring-backend/src/main/java/com/wodendev/springbackend/controller/TaskController.java:38 | the page count is exactly k when the rows overflow k - 1 pages and fit in k |
| TaskController.TotalPagesExamples | apps/spring-backend/src/main/java/com/wodendev/springbackend/controller/TaskController.java:38 | no rows give no pages; a full page gives one, one row more gives two |
| TaskController.ReportedPage | apps/spring-backend/src/main/java/com/wodendev/springbackend/controller/TaskController.java:34 | a missing or non-positive page is reported as 1, any other as given |
| TaskController.ReportedLimit | apps/spring-backend/src/main/java/com/wodendev/springbackend/controller/TaskController.java:35 | a missing or non-positive limit is reported as the page's size, any other as given |
| TaskController.GetTasks | apps/spring-backend/src/main/java/com/wodendev/springbackend/controller/TaskController.java:23-41 | the response holds exactly data, total, page, limit and totalPages, with the rows, the total, the reported page and limit and the page count |
| TaskController.ResponseEchoesServicePaging | apps/spring-backend/src/main/java/com/wodendev/springbackend/controller/TaskController.java:29-38 | the page and limit reported are the service's normalised ones, and the page count is taken over the normalised limit |
| TaskController.FoundOr404 | apps/spring-backend/src/main/java/com/wodendev/springbackend/controller/TaskController.java:43-61 | the task found is answered, and 404 exactly when there is none |
| TaskController.DeleteTask | apps/spring-backend/src/main/java/com/wodendev/springbackend/controller/TaskController.java:63-68 | the response holds only "affected", which is 1 exactly when the task was removed and 0 otherwise |
| ErrorFormatter.FormatDatabaseError | apps/ng-tracker/src/app/shared/utils/error-formatter.ts:20-22 | anything that is not an object gives "An unknown error occurred" |
| ErrorFormatter.Describe | apps/ng-tracker/src/app/shared/utils/error-formatter.ts:52-89 | each of the four path codes gives its text followed by the path text, each of the five detail codes its text followed by the detail text, and DB_LOCKED the fixed lock text |
| ErrorFormatter.FallbackOrder | apps/ng-tracker/src/app/shared/utils/error-formatter.ts:33-43 | without an error code: status 0 gives the cannot-connect text, then the status text, then the message, then the generic text |
| ErrorFormatter.CodeBeatsStatus | apps/ng-tracker/src/app/shared/utils/error-formatter.ts:28-52 | a truthy error code in the body decides the text, whatever the status |
| ErrorFormatter.PathCodesNameThePath | apps/ng-tracker/src/app/shared/utils/error-formatter.ts:53-69 | DB_FILE_NOT_FOUND, DB_PERMISSION_DENIED, DB_SCHEMA_INVALID and DB_MIGRATION_FAILED name the database path, or "unknown path" when it is missing or empty |
| ErrorFormatter.LockedIsFixed | apps/ng-tracker/src/app/shared/utils/error-formatter.ts:59-60 | DB_LOCKED always gives the same fixed text |
| ErrorFormatter.DetailCodesPreferRootMessage | apps/ng-tracker/src/app/shared/utils/error-formatter.ts:62-81 | DB_CONNECTION_FAILED and the four TASK_* codes append the root message when there is one, else the message |
| ErrorFormatter.UnknownCodeFallsBack | apps/ng-tracker/src/app/shared/utils/error-formatter.ts:83-89 | any other code gives "error: rootMessage" when there is a root message, else the message, else the generic text |
| ErrorFormatter.ExtraLookups | apps/spring-backend/src/main/java/com/wodendev/springbackend/exception/GlobalExceptionHandler.java:44-65 | the Spring body of a database error carries the error code, and for an initialization failure the database path, where the formatter reads them |
| ErrorFormatter.SpringInitializationErrorNamesPath | apps/ng-tracker/src/app/shared/utils/error-formatter.ts:53-69 | a Spring initialization failure with a path code is shown naming the path it was raised with |
| ErrorFormatter.SpringLockedErrorIsFixed | apps/ng-tracker/src/app/shared/utils/error-formatter.ts:59-60 | a Spring DB_LOCKED operation failure is shown as the fixed lock text |
| NgTaskService.NameValue | apps/ng-tracker/src/app/shared/services/task.service.ts:23 | a segment without "=" is a name with an empty value |
| NgTaskService.Lookup | apps/ng-tracker/src/app/shared/services/task.service.ts:23 | a value is found exactly when some pair has the name, and it is that pair's value |
| NgTaskService.Segments | apps/ng-tracker/src/app/shared/services/task.service.ts:62-72 | each pair becomes "name=value", in order |
| NgTaskService.NameValueOfPair | apps/ng-tracker/src/app/shared/services/task.service.ts:23 | "name=value" splits back into the name and the value when the name has no "=" |
| NgTaskService.DecodeSegments | apps/ng-tracker/src/app/shared/services/task.service.ts:23 | reading the segments the form serializer writes gives every pair back, names and values decoded, whatever their characters |
| NgTaskService.QueryRoundTrip | apps/ng-tracker/src/app/shared/services/task.service.ts:19-25 | `new URLSearchParams` reads a query written by the form serializer back to exactly its pairs, for any names and values, '+', '%', '&' and '=' included |
| NgTaskService.FormDecode | apps/ng-tracker/src/app/shared/services/task.service.ts:23 | a name or value without '%' or '+' reads as written, and decoding never lengthens it |
| NgTaskService.FormRoundTrip | apps/ng-tracker/src/app/shared/services/task.service.ts:23 | whatever the text, URLSearchParams' decoding reads back what the form serializer wrote |
| NgTaskService.FormDecodeExamples | apps/ng-tracker/src/app/shared/services/task.service.ts:23 | '+' reads as a space, "%3A" and "%2f" as ':' and '/', and a '%' that starts no escape as itself |
| NgTaskService.EncodeChar | apps/ng-tracker/src/app/shared/services/task.service.ts:65-72 | a character is written without '&', '=' or '#', and a safe one as it is |
| NgTaskService.FormEncode | apps/ng-tracker/src/app/shared/services/task.service.ts:65-72 | a written name or value holds no '&', '=' or '#', so it cannot split a pair or end the query |
| NgTaskService.EscapeReadsBack | apps/ng-tracker/src/app/shared/services/task.service.ts:23 | an escape of an ASCII character reads back as that character, whatever follows |
| NgTaskService.FormEncodeSafe | apps/ng-tracker/src/app/shared/services/task.service.ts:65-72 | letters, digits and `*-._` are written as they are |
| NgTaskService.EnvText | apps/ng-tracker/src/app/shared/services/task.service.ts:10-14 | an environment variable counts exactly when the environment exists and the variable is a non-empty string |
| NgTaskService.QueryUrl | apps/ng-tracker/src/app/shared/services/task.service.ts:20-25 | the override is the decoded value of the first taskApiUrl parameter, and never empty |
| NgTaskService.ResolutionOrder | apps/ng-tracker/src/app/shared/services/task.service.ts:7-31 | TASK_API_URL wins, then PORT gives http://localhost:PORT/tasks, then the taskApiUrl query parameter, then the compiled-in URL |
| NgTaskService.ResolveTaskApiUrl | apps/ng-tracker/src/app/shared/services/task.service.ts:7-31 | the URL is never empty unless the compiled-in URL is |
| NgTaskService.QueryOverrideIsUsed | apps/ng-tracker/src/app/shared/services/task.service.ts:19-25 | in a browser window opened with ?taskApiUrl= and the URL written by the form serializer, the service talks to that URL, whatever its characters |
| NgTaskService.QueryValueIsUsed | apps/ng-tracker/src/app/shared/services/task.service.ts:19-30 | a query holding only a non-empty taskApiUrl decides the address when the environment has no override |
| NgTaskService.ParsedAsWritten | apps/ng-tracker/src/app/shared/services/task.service.ts:23 | one parameter written without '&', '%' or '+' parses back as written |
| NgTaskService.QueryOverrideAsWritten | apps/ng-tracker/src/app/shared/services/task.service.ts:19-25 | the link of the source's comment, ?taskApiUrl=URL with no '%', '+' or '&' in URL, makes the service talk to URL as written |
| NgTaskService.SetNew | apps/ng-tracker/src/app/shared/services/task.service.ts:62-72 | setting a new parameter appends it |
| NgTaskService.TaskParamsAreTheTruthyFields | apps/ng-tracker/src/app/shared/services/task.service.ts:62-72 | page, limit and search are sent in that order, each exactly when it is truthy, rendered as a string |
| NgTaskService.ParamsReachTheBackend | apps/ng-tracker/src/app/shared/services/task.service.ts:61-75 | with the query written by the form serializer, a backend reading it as URLSearchParams does finds exactly the truthy fields, each with its text |
| NgTaskService.RenderedNumberIsPlain | apps/ng-tracker/src/app/shared/services/task.service.ts:65-68 | a rendered page or limit needs no escape, so it is sent as it reads |
| NgTaskService.IntToStringChars | apps/ng-tracker/src/app/shared/services/task.service.ts:65-68 | a rendered integer holds only digits and a minus sign |
| NgTaskService.NatToStringChars | apps/ng-tracker/src/app/shared/services/task.service.ts:65-68 | a rendered natural number holds only digits |
| NgTaskService.EndpointsShareTheBase | apps/ng-tracker/src/app/shared/services/task.service.ts:84-106 | the item and create URLs both sit under the base URL, and coincide exactly when the id renders as "create" |
| ExpressTaskService.NumberOr | apps/express-backend/src/app/feature/task/task.service.ts:24-25 | a truthy number is used, a missing or zero one becomes the default |
| ExpressTaskService.SearchText | apps/express-backend/src/app/feature/task/task.service.ts:26-32 | there is a search exactly when the text trims to something non-empty, and it is the trimmed text |
| ExpressTaskService.CeilDiv | apps/express-backend/src/app/feature/task/task.service.ts:46 | the page count is the ceiling of count over limit, for either sign of the limit |
| ExpressTaskService.FindAllOptions | apps/express-backend/src/app/feature/task/task.service.ts:23-44 | the request takes limit rows and skips the earlier pages, and filters on "%search%" exactly when there is a search |
| ExpressTaskService.FindAllResponse | apps/express-backend/src/app/feature/task/task.service.ts:46-54 | the response carries the rows, the count, the page and a non-zero limit |
| ExpressTaskService.PagesCoverTheRows | apps/express-backend/src/app/feature/task/task.service.ts:28-46 | with a positive limit, a page from 1 on starts before the end exactly when it is at most the reported page count |
| ExpressTaskService.DefaultRequest | apps/express-backend/src/app/feature/task/task.service.ts:24-34 | a missing query, or zeros and a blank search, ask for the first ten rows unfiltered |
| ExpressTaskService.Create | apps/express-backend/src/app/feature/task/task.service.ts:18-21 | the task is stored under its id, replacing any row there, every other row is kept, and the task is returned |
| ExpressTaskService.FindOne | apps/express-backend/src/app/feature/task/task.service.ts:57-59 | the row with the id is found exactly when there is one |
| ExpressTaskService.CreateThenFindOne | apps/express-backend/src/app/feature/task/task.service.ts:18-73 | a created task is found under its id, other ids are unaffected, and a removed id is not found |
| ExpressTaskService.Patch | apps/express-backend/src/app/feature/task/task.service.ts:62-66 | the update never changes the id |
| ExpressTaskService.Update | apps/express-backend/src/app/feature/task/task.service.ts:61-68 | the ids stay the same, the row with the id is patched and every other row kept, and the result is what findOne then finds |
| ExpressTaskService.UpdateIsIdempotent | apps/express-backend/src/app/feature/task/task.service.ts:61-68 | updating twice with the same body is updating once, and every row stays under its own id |
| ExpressTaskService.Remove | apps/express-backend/src/app/feature/task/task.service.ts:70-73 | the row is removed, and one row is counted exactly when it was there |
| ExpressTaskService.RemoveByName | apps/express-backend/src/app/feature/task/task.service.ts:75-78 | exactly the rows with that text are removed, the others kept, and the removed rows counted |
| ExpressTaskService.RemoveByNameCounts | apps/express-backend/src/app/feature/task/task.service.ts:75-78 | the removed and the kept rows add up to the rows there were |
| ExpressTaskService.UnionSize | apps/express-backend/src/app/feature/task/task.service.ts:75-78 | two disjoint sets together have the sum of their sizes |
| NodeDatabaseConfig.GetDatabasePath | apps/express-backend/src/app/core/database/database.config.ts:8-21 | under dev and staging the file in the working directory; otherwise a non-empty DATABASE_PATH, else the working-directory file |
| NodeDatabaseConfig.OverrideOnlyOutsideLocalStages | apps/express-backend/src/app/core/database/database.config.ts:8-21 | the file moves away from the working directory only outside dev and staging, and only to DATABASE_PATH |
| NodeDatabaseConfig.DatabasePathUnderEachStage | apps/nest-backend/src/app/core/database/database.config.ts:7-20 | setting DATABASE_PATH changes nothing under dev or staging and is used as given elsewhere |
| NodeDatabaseConfig.ExpressConfig | apps/express-backend/src/app/core/database/database.config.ts:23-31 | SQLite on that path, synchronised, logging exactly under dev, with the task entity listed |
| NodeDatabaseConfig.NestConfig | apps/nest-backend/src/app/core/database/database.config.ts:22-30 | SQLite on that path, synchronised, logging exactly under dev, with entities loaded automatically |
| NodeDatabaseConfig.BackendsShareTheFile | apps/nest-backend/src/app/core/database/database.config.ts:7-30 | under one environment both backends open the same file with the same logging; staging uses the working-directory file without SQL logging |
| FileUtils.IndexOf | src/file-utils.ts:4-7 | the first position of the character, or nothing exactly when it does not occur |
| FileUtils.IndexOfAfter | src/file-utils.ts:4-7 | in a text whose prefix lacks the character, the first occurrence is right after the prefix |
| FileUtils.ParseTypeAndMessageOf | src/file-utils.ts:4-7 | "<TYPE>: <message>" reads back as the type and the message when the type holds no colon |
| FileUtils.FileStore.constructor | src/file-utils.ts:4-15 | the store starts with the given files and directories |
| BackendProbe.CountsOfConcat | src/backend.ts:115-191 | the probes, delays and closes of two event runs joined are those of each run added up |
| PathUtils.BackendOrderNonEmpty | src/path-utils.ts:110-118 | there is always at least one backend to try |
| PathUtils.AllFrontendEntriesNonEmpty | src/path-utils.ts:147-169 | with at least one frontend there is at least one entry to try |
| PathUtils.EntriesPrefix | src/path-utils.ts:147-169 | the preferred frontend's entries are tried first |
| PrepareJavaRuntime.UniqueStep | tools/prepare-java-runtime.ts:68-87 | adding a name to the insertion-ordered set appends it only when it is new |
| PrepareJavaRuntime.BaselineIsClean | tools/prepare-java-runtime.ts:72-86 | every baseline module name is non-empty, trimmed and comma-free |
| PrepareJavaRuntime.FirstWithToolsCons | tools/prepare-java-runtime.ts:107-119 | the first candidate is taken when it holds both tools, else the search goes on with the rest |
| PrepareJavaRuntime.FirstWithToolsAppend | tools/prepare-java-runtime.ts:107-119 | searching two candidate lists in turn finds the first list's answer when it has one, else the second's |
| PrepareJavaRuntime.SearchOrderStep | tools/prepare-java-runtime.ts:107-119 | each level-1 directory is tried before its level-2 directories, and both before the next level-1 directory |
| WithEnv.FilePairs | tools/with-env.ts:236-238 | each env file contributes "-f" followed by the file, in order |
| Seqs.Unique | tools/prepare-java-runtime.ts:68-87 | the insertion-ordered set holds each element of the input exactly once and nothing else |
| Seqs.UniqueKeepsFirstOccurrenceOrder | tools/prepare-java-runtime.ts:68-87 | the set lists its elements in order of first occurrence |
| Seqs.UniqueHead | tools/prepare-java-runtime.ts:68-87 | the first element added comes first |
| Text.Split | tools/prepare-java-runtime.ts:63-64 | splitting gives at least one part, and no part holds the separator |
| Text.SplitJoin | tools/prepare-java-runtime.ts:63-64 | parts without the separator, joined with it, split back into the same parts |
| Text.TrimShape | tools/prepare-java-runtime.ts:65 | a trimmed text is empty or neither starts nor ends with whitespace |
| Text.TrimEmptyIff | tools/prepare-java-runtime.ts:66 | a text trims to empty exactly when it is all whitespace |
| Text.TrimIdempotent | tools/prepare-java-runtime.ts:65 | trimming twice is trimming once |
| Text.ToLower | apps/spring-backend/src/main/java/com/wodendev/springbackend/service/Schema.java:75 | each character is lower-cased in place |
| Sorting.Insert | tools/prepare-spring-dist.ts:37 | inserting into a sorted list keeps it sorted and adds exactly the one name |
| Sorting.SortOfSorted | tools/prepare-spring-dist.ts:37 | sorting an already sorted list changes nothing |
| Sorting.SortSameElements | tools/prepare-spring-dist.ts:37 | the sorted list holds exactly the input's names |

## Left out

- File-system, process and network calls are not executed. They are parameters: existence sets, directory listings, failure flags, probe outcomes, command traces.
- The Electron `BrowserWindow` internals (rendering, `loadFile`, devtools) are left out; only the two slots, the chosen content and the devtools flag are kept.
- Wall-clock timestamps, `Date.toISOString` and `OffsetDateTime.now` are opaque input strings, and the UUID in `create` is an input.
- The asynchronous stdout and stderr streaming of child processes is left out, and so is console output.
- SQL statements are modelled as their text and bound parameters; what the database does with them (LIKE matching, ordering, counting) is not. Rows, counts and affected-row numbers are inputs.
- TaskService.TaskService.GetSchema: the volatile field and the `synchronized` double check are modelled as a sequential memo; concurrent first calls are not.
- TaskService.TaskService.Create: the source sets the new id on the caller's task object; the model returns the task with the id instead.
- TaskService.TaskService.Create: the StringBuilders for columns and values are modelled as lists joined with ", ".
- TaskController.TotalPages: Spring's `PageImpl` adjusts the total when the last page is short; the model takes the total the count query returned.
- TaskController.GetTasks: the response map is a `HashMap`, so only its keys and values are modelled, not an order.
- ExpressTaskService.CeilDiv: `Math.ceil` over floating-point numbers is modelled on integers; page and limit values that are not integers, and `NaN`, are left out.
- ExpressTaskService.Update: TypeORM is taken to skip fields the body leaves undefined. The update writes text, day and reminder only.
- ExpressTaskService.NumberOr: page and limit are numbers or missing; the query-string parsing of the Express routes is not part of this model.
- ErrorFormatter.FormatDatabaseError: values are the JavaScript values a response body can carry here (undefined, null, strings, integers); other types are left out.
- NgTaskService.ParamsReachTheBackend: the query is taken to be written by the URL Standard's form serializer; `HttpParams`' own codec, which leaves a different set of characters unescaped, is Angular's and is not modelled, and the backend's query parser is taken to read the query as `URLSearchParams` does.
- NgTaskService.FormDecode: an escape of a byte at or above 0x80 is kept as text, where `URLSearchParams` joins such bytes as UTF-8 (and reads an invalid sequence as U+FFFD); characters beyond ASCII written as they are pass through, as they do in the source.
- NgTaskService.EncodeChar: a character beyond ASCII is written as it is rather than as the escapes of its UTF-8 bytes; the decoder gives back the same character either way.
- TaskService.TaskService.FindAll, TaskService.PageQueries, TaskService.RunPageQueries: they bind the intended offset `Offset`, not the wrapped 32-bit `int` product of TaskService.java:183, which the Findings row and `TaskService.OffsetAsWrittenGoesNegative` record (for page 214748366 and limit 10 the source binds -2147483646, which SQLite reads as no offset, and answers with the first page).
- Text.ToLower: case mapping is ASCII-only. `Schema.java` and `TaskService.java` lower-case with `Locale.ROOT`, and JavaScript's `toLowerCase` maps all of Unicode; both agree with the model on ASCII text.
- DatabaseExceptionHelper.IsDatabaseLocked, DatabaseExceptionHelper.IsConnectionFailed: `DatabaseExceptionHelper.java:35,45` lower-case with the JVM's default locale. Under a Turkish locale "I" becomes a dotless "ı", so a message such as "DATABASE IS LOCKED" would not be classified as a lock error there; the model maps ASCII the same way in every locale.
- PathUtils.PathJoin: `path.join` and `path.resolve` are modelled as concatenation with "/", without normalising "..", "." or repeated separators.
- Sorting.Sort: the model sorts in code-point order. The default `sort` of the module names compares UTF-16 code units; the two orders differ only when a character beyond U+FFFF meets one in U+E000..U+FFFF, and the module names are ASCII, so they agree there. The jar names are sorted with `localeCompare`, which the model also takes as code-point order. The two orders differ on mixed case and on punctuation: of "app-release.jar" and "app-SNAPSHOT.jar", `localeCompare` puts the SNAPSHOT jar last and the model puts the release jar last.
- PrepareSpringDist.PickJar: for the reason above, the jar picked is the greatest in code-point order. It agrees with the script when the runnable jar names hold a lower-case letter or a digit each at the first place they differ.
- FileUtils.FileStore.LogToFile: the console output in the error path is left out.
- FileUtils.FileStore.MakeDirs: the store keeps files and directories apart and does not check that the parents of a path are directories, so a recursive `mkdirSync` that fails because a file sits on the path is not modelled. `FileUtils.FileStore.LogToFile` takes that failure as an input; `EnsureDir`, the Spring distribution step and the Java runtime step assume it does not happen.
- Backend.LaunchFrom, Backend.StartBackend: the environment write is kept as the environment itself; the `JSON.stringify` text of it is not modelled. The log folder every write goes to is the returned folder.
- GlobalExceptionHandler.HandleException: the logger call is left out. The body's `LinkedHashMap` is an ordered list of entries, and the handler's extras are copied into it by `putAll` in the iteration order of the `Map.of` that holds them (GlobalExceptionHandler.java:44-47, 61-64). Java leaves that order unspecified, and it can change from one run of the JVM to the next. The model fixes one order, `errorCode` first and then `operation` or `databasePath`, which the source does not guarantee; only the set of entries and their place after the seven base entries are fixed by the source.
- GlobalExceptionHandler.IsDevProfile: an exception from `getActiveProfiles` is the `Unreadable` environment.
- WithEnv.EnvCmdBin: reading and parsing `env-cmd/package.json` is left out beyond the choice of the bin field; the located package is an input.
- PrepareJavaRuntime.PrepareRuntime: what `jdeps` and `jlink` do is not modelled; their command lines and the jdeps output are.
- Unreachable branches (a `die` or `process.exit` that never returns, a type check that cannot fail) are left out.

## Findings

| source | as written | input that shows it | evidently intended | confidence | as-written member | corrected member |
|---|---|---|---|---|---|---|
| tools/with-env.ts:178-183 | the handler table is a plain object, so `handlers[arg]` also finds inherited members; calling one does not advance `i` | `--profile dev constructor` | an argument that is not a flag stops with "Unknown argument" | high, not executed | WithEnv.InheritedHandlerLoops | WithEnv.UnknownArgumentIsFatal |
| tools/with-env.ts:198-215 | `PROFILE_FILES[profile]` and `BACKEND_NAMES[backend]` index plain objects, so they also find members inherited from `Object.prototype`: an inherited profile passes the unknown-profile check and the spread `[...baseFiles]` throws a TypeError, and an inherited backend passes the unknown-backend check and sets BACKEND to the member's source text | `--profile dev --be constructor -- node x` runs the command with BACKEND="function Object() { [native code] }"; `--profile constructor -- node x` ends in an uncaught TypeError | both are reported as "Unknown backend" and "Unknown profile" | high, not executed | WithEnv.InheritedBackendIsAccepted | WithEnv.InheritedBackendIsUnknown |
| forge.config.mjs:74-79 | `PROFILES[APP_PROFILE]` finds the inherited `constructor` function, which is not nullish, so the `?? PROFILES['ng-nest']` fallback is skipped and `extraResource` is undefined | APP_PROFILE=constructor | an unknown profile packages the ng-nest resources | high, not executed | ForgeConfig.ConstructorProfileShipsNothing | ForgeConfig.ExtraResourceShape |
| apps/spring-backend/src/main/java/com/wodendev/springbackend/exception/GlobalExceptionHandler.java:141-147 | the walk only guards against a self-cause, so two exceptions that are each other's cause keep the loop running | a causes b and b causes a | the walk stops at the last exception before a repeat | medium, not executed | GlobalExceptionHandler.MutualCausesNeverStop | GlobalExceptionHandler.RootCauseAgreesWhenLoopEnds |
| apps/spring-backend/src/main/java/com/wodendev/springbackend/service/TaskService.java:181-183 | `(p - 1) * l` is 32-bit `int` arithmetic and wraps | page=214748366, limit=10 gives OFFSET -2147483646 | the offset 2147483650 (the query then returns no rows) | high, not executed | TaskService.OffsetAsWrittenGoesNegative | TaskService.Offset |
