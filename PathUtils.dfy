/** Which frontend and backend the desktop shell runs, and where their files are found:
    alias normalisation, inference from APP_PROFILE, the FRONTEND/BACKEND overrides, and
    the ordered candidate paths resolved against the set of paths that exist. */
module PathUtils {
  import opened Text
  import Seqs

  /** The process environment; a key that is absent is not in the map. */
  type Env = map<string, string>

  /** `process.env[key] || ''`: an absent and an empty variable read the same. */
  function EnvOr(env: Env, key: string): string {
    if key in env then env[key] else ""
  }

  /** `path.join(a, b)`, without the normalisation of `.` and `..` segments. */
  function PathJoin(a: string, b: string): string {
    a + "/" + b
  }

  datatype Frontend = NgTracker | VueTracker | ReactTracker {
    function Name(): string {
      match this
      case NgTracker => "ng-tracker"
      case VueTracker => "vue-tracker"
      case ReactTracker => "react-tracker"
    }
  }

  datatype Backend = NestBackend | ExpressBackend | SpringBackend {
    function Name(): string {
      match this
      case NestBackend => "nest-backend"
      case ExpressBackend => "express-backend"
      case SpringBackend => "spring-backend"
    }
  }

  const KnownFrontends: seq<Frontend> := [NgTracker, VueTracker, ReactTracker]
  const KnownBackends: seq<Backend> := [NestBackend, ExpressBackend, SpringBackend]

  // ---------------------------------------------------------------- names

  /** Frontend aliases; every other value, the empty one included, is the Angular tracker. */
  function NormalizeFrontendName(value: string): (f: Frontend)
    ensures f == VueTracker <==> TrimLower(value) in {"vue", "vue-tracker"}
    ensures f == ReactTracker <==> TrimLower(value) in {"react", "react-tracker"}
  {
    var key := TrimLower(value);
    if key == "ng" || key == "angular" || key == "ng-tracker" then NgTracker
    else if key == "vue" || key == "vue-tracker" then VueTracker
    else if key == "react" || key == "react-tracker" then ReactTracker
    else NgTracker
  }

  /** Backend aliases; every other value, the empty one included, is the Nest backend. */
  function NormalizeBackendName(value: string): (b: Backend)
    ensures b == ExpressBackend <==> TrimLower(value) in {"express", "express-backend"}
    ensures b == SpringBackend <==> TrimLower(value) in {"spring", "spring-boot", "spring-backend"}
  {
    var key := TrimLower(value);
    if key == "nest" || key == "nestjs" || key == "nest-backend" then NestBackend
    else if key == "express" || key == "express-backend" then ExpressBackend
    else if key == "spring" || key == "spring-boot" || key == "spring-backend" then SpringBackend
    else NestBackend
  }

  /** Substring inference from a profile such as `vue-express`: "vue" before "react". */
  function InferFrontendNameFromProfile(profile: string): (f: Frontend)
    ensures Contains(TrimLower(profile), "vue") ==> f == VueTracker
    ensures !Contains(TrimLower(profile), "vue") && Contains(TrimLower(profile), "react") ==> f == ReactTracker
    ensures !Contains(TrimLower(profile), "vue") && !Contains(TrimLower(profile), "react") ==> f == NgTracker
  {
    var key := TrimLower(profile);
    if key == "" then NgTracker
    else if Contains(key, "vue") then VueTracker
    else if Contains(key, "react") then ReactTracker
    else if Contains(key, "ng") || Contains(key, "angular") then NgTracker
    else NgTracker
  }

  /** Substring inference from a profile: "express" before "spring" before "nest". */
  function InferBackendNameFromProfile(profile: string): (b: Backend)
    ensures Contains(TrimLower(profile), "express") ==> b == ExpressBackend
    ensures !Contains(TrimLower(profile), "express") && Contains(TrimLower(profile), "spring") ==> b == SpringBackend
    ensures !Contains(TrimLower(profile), "express") && !Contains(TrimLower(profile), "spring") ==> b == NestBackend
  {
    var key := TrimLower(profile);
    if key == "" then NestBackend
    else if Contains(key, "express") then ExpressBackend
    else if Contains(key, "spring") then SpringBackend
    else if Contains(key, "nest") then NestBackend
    else NestBackend
  }

  /** A non-empty FRONTEND wins; otherwise the name is inferred from APP_PROFILE. */
  function GetFrontendName(env: Env): (f: Frontend)
    ensures EnvOr(env, "FRONTEND") != "" ==> f == NormalizeFrontendName(env["FRONTEND"])
    ensures EnvOr(env, "FRONTEND") == "" ==>
      (f == VueTracker <==> Contains(TrimLower(EnvOr(env, "APP_PROFILE")), "vue"))
    ensures EnvOr(env, "FRONTEND") == "" ==>
      (f == ReactTracker <==>
        !Contains(TrimLower(EnvOr(env, "APP_PROFILE")), "vue") && Contains(TrimLower(EnvOr(env, "APP_PROFILE")), "react"))
  {
    if EnvOr(env, "FRONTEND") != "" then NormalizeFrontendName(env["FRONTEND"])
    else InferFrontendNameFromProfile(EnvOr(env, "APP_PROFILE"))
  }

  /** A non-empty BACKEND wins; otherwise the name is inferred from APP_PROFILE. */
  function GetBackendName(env: Env): (b: Backend)
    ensures EnvOr(env, "BACKEND") != "" ==> b == NormalizeBackendName(env["BACKEND"])
    ensures EnvOr(env, "BACKEND") == "" ==>
      (b == ExpressBackend <==> Contains(TrimLower(EnvOr(env, "APP_PROFILE")), "express"))
    ensures EnvOr(env, "BACKEND") == "" ==>
      (b == SpringBackend <==>
        !Contains(TrimLower(EnvOr(env, "APP_PROFILE")), "express") && Contains(TrimLower(EnvOr(env, "APP_PROFILE")), "spring"))
  {
    if EnvOr(env, "BACKEND") != "" then NormalizeBackendName(env["BACKEND"])
    else InferBackendNameFromProfile(EnvOr(env, "APP_PROFILE"))
  }

  /** Every canonical frontend name normalises to itself, whatever the case and padding around it. */
  lemma NormalizeFrontendCanonical(f: Frontend, value: string)
    requires TrimLower(value) == f.Name()
    ensures NormalizeFrontendName(value) == f
  {
  }

  /** Every canonical backend name normalises to itself, whatever the case and padding around it. */
  lemma NormalizeBackendCanonical(b: Backend, value: string)
    requires TrimLower(value) == b.Name()
    ensures NormalizeBackendName(value) == b
  {
  }

  /** Normalising an already normalised key changes nothing: only the key matters. */
  lemma NormalizeIgnoresCaseAndPadding(value: string)
    ensures NormalizeFrontendName(TrimLower(value)) == NormalizeFrontendName(value)
    ensures NormalizeBackendName(TrimLower(value)) == NormalizeBackendName(value)
    ensures InferFrontendNameFromProfile(TrimLower(value)) == InferFrontendNameFromProfile(value)
    ensures InferBackendNameFromProfile(TrimLower(value)) == InferBackendNameFromProfile(value)
  {
    TrimLowerIdempotent(value);
    FrontendDependsOnKey(TrimLower(value), value);
    BackendDependsOnKey(TrimLower(value), value);
  }

  lemma FrontendDependsOnKey(a: string, b: string)
    requires TrimLower(a) == TrimLower(b)
    ensures NormalizeFrontendName(a) == NormalizeFrontendName(b)
    ensures InferFrontendNameFromProfile(a) == InferFrontendNameFromProfile(b)
  {
  }

  lemma BackendDependsOnKey(a: string, b: string)
    requires TrimLower(a) == TrimLower(b)
    ensures NormalizeBackendName(a) == NormalizeBackendName(b)
    ensures InferBackendNameFromProfile(a) == InferBackendNameFromProfile(b)
  {
  }

  /** On a key that is already trimmed and lower-cased, inference only asks which names occur. */
  lemma InferFrontendFromKey(key: string)
    requires TrimLower(key) == key
    ensures InferFrontendNameFromProfile(key)
      == if Contains(key, "vue") then VueTracker else if Contains(key, "react") then ReactTracker else NgTracker
  {
  }

  lemma InferBackendFromKey(key: string)
    requires TrimLower(key) == key
    ensures InferBackendNameFromProfile(key)
      == if Contains(key, "express") then ExpressBackend else if Contains(key, "spring") then SpringBackend else NestBackend
  {
  }

  /** Inference from a canonical frontend name gives that frontend back. */
  lemma InferFrontendFromCanonicalName(f: Frontend)
    ensures InferFrontendNameFromProfile(f.Name()) == f
  {
    match f
    case NgTracker =>
      TrimLowerOfCanonical("ng-tracker");
      NgNamesNoOtherFrontend();
      InferFrontendFromKey("ng-tracker");
    case VueTracker =>
      TrimLowerOfCanonical("vue-tracker");
      assert OccursAt("vue-tracker", "vue", 0);
      InferFrontendFromKey("vue-tracker");
    case ReactTracker =>
      TrimLowerOfCanonical("react-tracker");
      ReactNamesReactOnly();
      InferFrontendFromKey("react-tracker");
  }

  lemma NgNamesNoOtherFrontend()
    ensures !Contains("ng-tracker", "vue") && !Contains("ng-tracker", "react")
  {
    assert "vue"[0] == 'v';
    MissingCharRefutes("ng-tracker", "vue", 'v');
    MissingPairRefutes("ng-tracker", "react", 0);
  }

  lemma ReactNamesReactOnly()
    ensures !Contains("react-tracker", "vue") && Contains("react-tracker", "react")
  {
    assert "vue"[0] == 'v';
    MissingCharRefutes("react-tracker", "vue", 'v');
    assert OccursAt("react-tracker", "react", 0);
  }

  /** Inference from a canonical backend name gives that backend back. */
  lemma InferBackendFromCanonicalName(b: Backend)
    ensures InferBackendNameFromProfile(b.Name()) == b
  {
    match b
    case NestBackend => InferNestFromItsName();
    case ExpressBackend => InferExpressFromItsName();
    case SpringBackend => InferSpringFromItsName();
  }

  lemma InferNestFromItsName()
    ensures InferBackendNameFromProfile("nest-backend") == NestBackend
  {
    var key := "nest-backend";
    TrimLowerOfCanonical(key);
    NestNamesNoOtherBackend();
    InferBackendFromKey(key);
  }

  lemma NestNamesNoOtherBackend()
    ensures !Contains("nest-backend", "express") && !Contains("nest-backend", "spring")
  {
    assert "express"[1] == 'x' && "spring"[1] == 'p';
    MissingCharRefutes("nest-backend", "express", 'x');
    MissingCharRefutes("nest-backend", "spring", 'p');
  }

  lemma InferExpressFromItsName()
    ensures InferBackendNameFromProfile("express-backend") == ExpressBackend
  {
    var key := "express-backend";
    TrimLowerOfCanonical(key);
    assert OccursAt(key, "express", 0);
    InferBackendFromKey(key);
  }

  lemma InferSpringFromItsName()
    ensures InferBackendNameFromProfile("spring-backend") == SpringBackend
  {
    var key := "spring-backend";
    TrimLowerOfCanonical(key);
    SpringNamesSpringOnly();
    InferBackendFromKey(key);
  }

  lemma SpringNamesSpringOnly()
    ensures !Contains("spring-backend", "express") && Contains("spring-backend", "spring")
  {
    assert "express"[1] == 'x';
    MissingCharRefutes("spring-backend", "express", 'x');
    assert OccursAt("spring-backend", "spring", 0);
  }

  /** A set override decides the frontend whatever APP_PROFILE holds. */
  lemma FrontendOverrideWins(env: Env, profile: string)
    requires EnvOr(env, "FRONTEND") != ""
    ensures GetFrontendName(env["APP_PROFILE" := profile]) == NormalizeFrontendName(env["FRONTEND"])
  {
  }

  /** A set override decides the backend whatever APP_PROFILE holds. */
  lemma BackendOverrideWins(env: Env, profile: string)
    requires EnvOr(env, "BACKEND") != ""
    ensures GetBackendName(env["APP_PROFILE" := profile]) == NormalizeBackendName(env["BACKEND"])
  {
  }

  /** APP_PROFILE=ng-spring alone selects the Spring backend ... */
  lemma ProfileSelectsSpringExample()
    ensures GetBackendName(map["APP_PROFILE" := "ng-spring"]) == SpringBackend
  {
    var env := map["APP_PROFILE" := "ng-spring"];
    assert EnvOr(env, "BACKEND") == "" && EnvOr(env, "APP_PROFILE") == "ng-spring";
    assert TrimLower("ng-spring") == "ng-spring" by { TrimLowerOfCanonical("ng-spring"); }
    assert !Contains("ng-spring", "express") by { MissingCharRefutes("ng-spring", "express", 'x'); }
    assert Contains("ng-spring", "spring") by { assert OccursAt("ng-spring", "spring", 3); }
  }

  /** ... but BACKEND=express beats it. */
  lemma BackendOverrideExample()
    ensures GetBackendName(map["BACKEND" := "express", "APP_PROFILE" := "ng-spring"]) == ExpressBackend
  {
    TrimLowerOfCanonical("express");
  }

  /** A profile naming both vue and react picks vue. */
  lemma FrontendPriorityExample()
    ensures GetFrontendName(map["APP_PROFILE" := "vue-react"]) == VueTracker
  {
    TrimLowerOfCanonical("vue-react");
    assert OccursAt("vue-react", "vue", 0);
  }

  /** With neither override nor profile the shell runs the Angular tracker on the Nest backend. */
  lemma EmptyEnvironmentDefaults()
    ensures GetFrontendName(map[]) == NgTracker && GetBackendName(map[]) == NestBackend
  {
    assert TrimLower("") == "";
  }

  // ---------------------------------------------------------------- candidate paths

  /** The index of the first candidate that exists, or `|paths|` when none does. */
  function FirstExistingIndex(paths: seq<string>, existing: set<string>): (i: nat)
    ensures i <= |paths|
    ensures forall j :: 0 <= j < i ==> paths[j] !in existing
    ensures i < |paths| ==> paths[i] in existing
  {
    if paths == [] then 0
    else if paths[0] in existing then 0
    else 1 + FirstExistingIndex(paths[1..], existing)
  }

  /** The first existing candidate, else the first candidate. */
  function FirstExisting(paths: seq<string>, existing: set<string>): (r: string)
    requires |paths| > 0
    ensures r in paths
    ensures r in existing <==> exists j :: 0 <= j < |paths| && paths[j] in existing
  {
    var i := FirstExistingIndex(paths, existing);
    if i < |paths| then paths[i] else paths[0]
  }

  /** `resolveFirstExistingPath`: scans the candidates in order and returns the first that
      exists; when none does it falls back to the first candidate. */
  method ResolveFirstExistingPath(paths: seq<string>, existing: set<string>) returns (r: string)
    requires |paths| > 0
    ensures r == FirstExisting(paths, existing)
  {
    for i := 0 to |paths|
      invariant forall j :: 0 <= j < i ==> paths[j] !in existing
    {
      if paths[i] in existing {
        return paths[i];
      }
    }
    return paths[0];
  }

  /** The override (when set), the inferred name, then every known backend, without repeats. */
  function BackendOrder(env: Env): seq<Backend> {
    var preferred := if EnvOr(env, "BACKEND") != "" then [NormalizeBackendName(env["BACKEND"])] else [];
    Seqs.Unique(preferred + [InferBackendNameFromProfile(EnvOr(env, "APP_PROFILE"))] + KnownBackends)
  }

  /** The override (when set), the inferred name, then every known frontend, without repeats. */
  function FrontendOrder(env: Env): seq<Frontend> {
    var preferred := if EnvOr(env, "FRONTEND") != "" then [NormalizeFrontendName(env["FRONTEND"])] else [];
    Seqs.Unique(preferred + [InferFrontendNameFromProfile(EnvOr(env, "APP_PROFILE"))] + KnownFrontends)
  }

  /** `path.join(base, name)` for each backend name in turn. */
  function BackendFolders(base: string, names: seq<Backend>): (r: seq<string>)
    ensures |r| == |names|
    ensures forall i :: 0 <= i < |names| ==> r[i] == PathJoin(base, names[i].Name())
  {
    seq(|names|, i requires 0 <= i < |names| => PathJoin(base, names[i].Name()))
  }

  /** `resourcesPath/<name>` for every backend in order, then `resourcesPath` itself when it holds `main.js`. */
  function ProdBackendCandidates(env: Env, resourcesPath: string, existing: set<string>): seq<string> {
    BackendFolders(resourcesPath, BackendOrder(env))
    + (if PathJoin(resourcesPath, "main.js") in existing then [resourcesPath] else [])
  }

  /** `resolveBackendFolderInProd`. */
  method ResolveBackendFolderInProd(env: Env, resourcesPath: string, existing: set<string>) returns (r: string)
    ensures r == FirstExisting(ProdBackendCandidates(env, resourcesPath, existing), existing)
  {
    var names := BackendOrder(env);
    BackendOrderNonEmpty(env);
    var candidates := BackendFolders(resourcesPath, names);
    if PathJoin(resourcesPath, "main.js") in existing {
      candidates := candidates + [resourcesPath];
    }
    assert candidates == ProdBackendCandidates(env, resourcesPath, existing);
    r := ResolveFirstExistingPath(candidates, existing);
  }

  lemma BackendOrderNonEmpty(env: Env)
    ensures |BackendOrder(env)| > 0
  {
    var preferred := if EnvOr(env, "BACKEND") != "" then [NormalizeBackendName(env["BACKEND"])] else [];
    var all := preferred + [InferBackendNameFromProfile(EnvOr(env, "APP_PROFILE"))] + KnownBackends;
    assert all[|all| - 1] in BackendOrder(env);
  }

  /** The backend order starts with the override when one is set, else with the inferred name,
      and holds every backend exactly once. */
  lemma BackendOrderShape(env: Env)
    ensures var names := BackendOrder(env);
      Seqs.NoDuplicates(names)
      && NestBackend in names && ExpressBackend in names && SpringBackend in names
      && names[0] == (if EnvOr(env, "BACKEND") != "" then NormalizeBackendName(env["BACKEND"])
                      else InferBackendNameFromProfile(EnvOr(env, "APP_PROFILE")))
  {
    var preferred := if EnvOr(env, "BACKEND") != "" then [NormalizeBackendName(env["BACKEND"])] else [];
    var all := preferred + [InferBackendNameFromProfile(EnvOr(env, "APP_PROFILE"))] + KnownBackends;
    Seqs.UniqueHead(all);
    assert all[|all| - 3] == NestBackend && all[|all| - 2] == ExpressBackend && all[|all| - 1] == SpringBackend;
  }

  /** In production the candidates are the backend folders in preference order, followed by the
      resources root exactly when it holds `main.js`; when the preferred backend's folder exists
      it is the one chosen. */
  lemma ProdBackendFolderChoice(env: Env, resourcesPath: string, existing: set<string>)
    ensures var names := BackendOrder(env);
      var c := ProdBackendCandidates(env, resourcesPath, existing);
      |c| == |names| + (if PathJoin(resourcesPath, "main.js") in existing then 1 else 0)
      && (PathJoin(resourcesPath, "main.js") in existing ==> c[|c| - 1] == resourcesPath)
      && (forall i :: 0 <= i < |names| ==> c[i] == PathJoin(resourcesPath, names[i].Name()))
    ensures var b := if EnvOr(env, "BACKEND") != "" then NormalizeBackendName(env["BACKEND"])
                     else InferBackendNameFromProfile(EnvOr(env, "APP_PROFILE"));
      PathJoin(resourcesPath, b.Name()) in existing ==>
        FirstExisting(ProdBackendCandidates(env, resourcesPath, existing), existing) == PathJoin(resourcesPath, b.Name())
  {
    BackendOrderShape(env);
    var c := ProdBackendCandidates(env, resourcesPath, existing);
    var names := BackendOrder(env);
    assert c[0] == PathJoin(resourcesPath, names[0].Name());
  }

  /** The index files one frontend contributes: Angular's `browser/index.html` before its `index.html`. */
  function FrontendEntries(base: string, f: Frontend): seq<string> {
    if f == NgTracker then
      [PathJoin(PathJoin(PathJoin(base, "ng-tracker"), "browser"), "index.html"),
       PathJoin(PathJoin(base, "ng-tracker"), "index.html")]
    else [PathJoin(PathJoin(base, f.Name()), "index.html")]
  }

  /** The entries of each frontend in turn. */
  function AllFrontendEntries(base: string, names: seq<Frontend>): seq<string> {
    if names == [] then []
    else AllFrontendEntries(base, names[..|names| - 1]) + FrontendEntries(base, names[|names| - 1])
  }

  /** `getProductionFrontendPath`. */
  method GetProductionFrontendPath(env: Env, resourcesPath: string, existing: set<string>) returns (r: string)
    ensures r == FirstExisting(AllFrontendEntries(resourcesPath, FrontendOrder(env)), existing)
  {
    var names := FrontendOrder(env);
    var candidates: seq<string> := [];
    for i := 0 to |names|
      invariant candidates == AllFrontendEntries(resourcesPath, names[..i])
    {
      AllFrontendEntriesStep(resourcesPath, names, i);
      candidates := candidates + FrontendEntries(resourcesPath, names[i]);
    }
    FrontendOrderNonEmpty(env);
    AllFrontendEntriesNonEmpty(resourcesPath, names);
    assert names[..|names|] == names;
    r := ResolveFirstExistingPath(candidates, existing);
  }

  /** One more frontend adds its entries at the end. */
  lemma AllFrontendEntriesStep(base: string, names: seq<Frontend>, i: nat)
    requires i < |names|
    ensures AllFrontendEntries(base, names[..i + 1])
      == AllFrontendEntries(base, names[..i]) + FrontendEntries(base, names[i])
  {
    assert names[..i + 1][..i] == names[..i];
  }

  lemma FrontendOrderNonEmpty(env: Env)
    ensures |FrontendOrder(env)| > 0
  {
    var preferred := if EnvOr(env, "FRONTEND") != "" then [NormalizeFrontendName(env["FRONTEND"])] else [];
    var all := preferred + [InferFrontendNameFromProfile(EnvOr(env, "APP_PROFILE"))] + KnownFrontends;
    assert all[|all| - 1] in FrontendOrder(env);
  }

  lemma AllFrontendEntriesNonEmpty(base: string, names: seq<Frontend>)
    requires names != []
    ensures |AllFrontendEntries(base, names)| > 0
  {
  }

  /** The first production candidates are the preferred frontend's: the override's when set,
      else the inferred one's; for Angular the `browser/index.html` comes first. */
  lemma {:induction false} ProdFrontendStartsWithPreferred(env: Env, resourcesPath: string)
    ensures var names := FrontendOrder(env);
      var c := AllFrontendEntries(resourcesPath, names);
      var f := if EnvOr(env, "FRONTEND") != "" then NormalizeFrontendName(env["FRONTEND"])
               else InferFrontendNameFromProfile(EnvOr(env, "APP_PROFILE"));
      |FrontendEntries(resourcesPath, f)| <= |c| && c[..|FrontendEntries(resourcesPath, f)|] == FrontendEntries(resourcesPath, f)
  {
    var preferred := if EnvOr(env, "FRONTEND") != "" then [NormalizeFrontendName(env["FRONTEND"])] else [];
    var all := preferred + [InferFrontendNameFromProfile(EnvOr(env, "APP_PROFILE"))] + KnownFrontends;
    Seqs.UniqueHead(all);
    var names := FrontendOrder(env);
    EntriesPrefix(resourcesPath, names);
  }

  /** The entries of a non-empty list begin with those of its first frontend. */
  lemma {:induction false} EntriesPrefix(base: string, names: seq<Frontend>)
    requires names != []
    ensures var e := FrontendEntries(base, names[0]);
      |e| <= |AllFrontendEntries(base, names)| && AllFrontendEntries(base, names)[..|e|] == e
    decreases |names|
  {
    if |names| > 1 {
      var init := names[..|names| - 1];
      EntriesPrefix(base, init);
      assert init[0] == names[0];
    } else {
      assert names[..0] == [];
    }
  }

  /** The dev-mode index candidates: Angular's two build outputs, or another frontend's
      `dist/<name>` output followed by its in-project `apps/<name>/dist/<name>` output. */
  function DevFrontendCandidates(cwd: string, f: Frontend): (c: seq<string>)
    ensures |c| == 2
  {
    if f == NgTracker then
      [PathJoin(PathJoin(PathJoin(PathJoin(cwd, "dist"), "ng-tracker"), "browser"), "index.html"),
       PathJoin(PathJoin(PathJoin(cwd, "dist"), "ng-tracker"), "index.html")]
    else
      [PathJoin(PathJoin(PathJoin(cwd, "dist"), f.Name()), "index.html"),
       PathJoin(PathJoin(PathJoin(PathJoin(PathJoin(cwd, "apps"), f.Name()), "dist"), f.Name()), "index.html")]
  }

  /** `getDevFrontendPath`. */
  method GetDevFrontendPath(env: Env, cwd: string, existing: set<string>) returns (r: string)
    ensures r == FirstExisting(DevFrontendCandidates(cwd, GetFrontendName(env)), existing)
  {
    r := ResolveFirstExistingPath(DevFrontendCandidates(cwd, GetFrontendName(env)), existing);
  }

  /** A non-Angular frontend whose `dist` build is missing falls back to its in-project build
      when that one exists, and to the `dist` path when neither does. */
  lemma DevFrontendFallback(cwd: string, f: Frontend, existing: set<string>)
    requires f != NgTracker
    ensures var c := DevFrontendCandidates(cwd, f);
      c[0] !in existing ==> FirstExisting(c, existing) == (if c[1] in existing then c[1] else c[0])
  {
    var c := DevFrontendCandidates(cwd, f);
    if c[0] !in existing {
      assert FirstExistingIndex(c[1..], existing) == (if c[1] in existing then 0 else 1);
    }
  }

  /** `getRootBackendFolderPath`: `cwd/dist/<backend>` outside production; the candidate search
      inside it. */
  method GetRootBackendFolderPath(env: Env, nodeEnv: string, cwd: string, resourcesPath: string,
                                  existing: set<string>) returns (r: string)
    ensures nodeEnv != "prod" ==> r == PathJoin(PathJoin(cwd, "dist"), GetBackendName(env).Name())
    ensures nodeEnv == "prod" ==> r == FirstExisting(ProdBackendCandidates(env, resourcesPath, existing), existing)
  {
    var name := GetBackendName(env);
    if nodeEnv == "dev" || nodeEnv == "staging" {
      r := PathJoin(PathJoin(cwd, "dist"), name.Name());
    } else if nodeEnv == "prod" {
      r := ResolveBackendFolderInProd(env, resourcesPath, existing);
    } else {
      r := PathJoin(PathJoin(cwd, "dist"), name.Name());
    }
  }
}
