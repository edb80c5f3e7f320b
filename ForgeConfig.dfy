/** Packaging configuration: the profile named by APP_PROFILE selects which built frontend and
    backend folders are shipped as extra resources of the desktop app. */
module ForgeConfig {
  import opened Wrappers
  import opened Text
  import PathUtils
  import BuildProfile

  /** A build output folder shipped with the app. */
  datatype Folder = FrontendDist(frontend: PathUtils.Frontend) | BackendDist(backend: PathUtils.Backend) {
    function Path(): string {
      match this
      case FrontendDist(f) => "./dist/" + f.Name()
      case BackendDist(b) => "./dist/" + b.Name()
    }
  }

  /** The profile table: each profile's extra resources, in order; `None` for a name that is not
      one of its keys. */
  function ProfileResources(name: string): Option<seq<Folder>> {
    match name
    case "ng-nest" => Some([FrontendDist(PathUtils.NgTracker), BackendDist(PathUtils.NestBackend)])
    case "ng-express" => Some([FrontendDist(PathUtils.NgTracker), BackendDist(PathUtils.ExpressBackend)])
    case "ng-spring" => Some([FrontendDist(PathUtils.NgTracker), BackendDist(PathUtils.SpringBackend)])
    case "vue-nest" => Some([FrontendDist(PathUtils.VueTracker), BackendDist(PathUtils.NestBackend)])
    case "vue-express" => Some([FrontendDist(PathUtils.VueTracker), BackendDist(PathUtils.ExpressBackend)])
    case "vue-spring" => Some([FrontendDist(PathUtils.VueTracker), BackendDist(PathUtils.SpringBackend)])
    case "react-nest" => Some([FrontendDist(PathUtils.ReactTracker), BackendDist(PathUtils.NestBackend)])
    case "react-express" => Some([FrontendDist(PathUtils.ReactTracker), BackendDist(PathUtils.ExpressBackend)])
    case "react-spring" => Some([FrontendDist(PathUtils.ReactTracker), BackendDist(PathUtils.SpringBackend)])
    case "all" => Some([FrontendDist(PathUtils.NgTracker), FrontendDist(PathUtils.VueTracker),
                        FrontendDist(PathUtils.ReactTracker), BackendDist(PathUtils.NestBackend),
                        BackendDist(PathUtils.ExpressBackend)])
    case _ => None
  }

  /** The profile name: APP_PROFILE, "ng-nest" when missing or empty, trimmed and lower-cased. */
  function AppProfile(env: PathUtils.Env): string {
    var raw := PathUtils.EnvOr(env, "APP_PROFILE");
    TrimLower(if raw == "" then "ng-nest" else raw)
  }

  /** The folders of a profile; an unknown one gets those of "ng-nest". */
  function ResolvedFolders(profile: string): (r: seq<Folder>)
    ensures ProfileResources(profile).Some? ==> r == ProfileResources(profile).value
    ensures ProfileResources(profile).None? ==>
      r == [FrontendDist(PathUtils.NgTracker), BackendDist(PathUtils.NestBackend)]
  {
    ProfileResources(profile).GetOr(ProfileResources("ng-nest").value)
  }

  function Paths(folders: seq<Folder>): (r: seq<string>)
    ensures |r| == |folders| && forall i :: 0 <= i < |folders| ==> r[i] == folders[i].Path()
  {
    seq(|folders|, i requires 0 <= i < |folders| => folders[i].Path())
  }

  /** `packagerConfig.extraResource`. */
  function ExtraResource(env: PathUtils.Env): seq<string> {
    Paths(ResolvedFolders(AppProfile(env)))
  }

  /** Every entry of the table lists frontend folders first, then at least one backend folder,
      and ships the Angular app or exactly one frontend. */
  lemma ProfileShape(name: string)
    ensures ProfileResources(name).Some? ==>
      var r := ProfileResources(name).value;
      |r| >= 2 && r[0].FrontendDist? && r[|r| - 1].BackendDist?
      && forall i, j :: 0 <= i < j < |r| ==> !(r[i].BackendDist? && r[j].FrontendDist?)
  {
  }

  /** The lookup is total: whatever APP_PROFILE holds, the resources shipped are a frontend
      folder followed by backend folders. */
  lemma ExtraResourceShape(env: PathUtils.Env)
    ensures var r := ResolvedFolders(AppProfile(env));
      |r| >= 2 && r[0].FrontendDist? && r[|r| - 1].BackendDist?
      && ExtraResource(env) == Paths(r)
  {
    ProfileShape(AppProfile(env));
  }

  /** Without APP_PROFILE the Angular app and the Nest backend are packaged. */
  lemma DefaultPackagesNgNest(env: PathUtils.Env)
    requires PathUtils.EnvOr(env, "APP_PROFILE") == ""
    ensures ExtraResource(env) == ["./dist/ng-tracker", "./dist/nest-backend"]
  {
    TrimLowerOfCanonical("ng-nest");
    assert AppProfile(env) == "ng-nest";
    assert ResolvedFolders("ng-nest") == [FrontendDist(PathUtils.NgTracker), BackendDist(PathUtils.NestBackend)];
    NgNestPaths();
  }

  lemma NgNestPaths()
    ensures Paths([FrontendDist(PathUtils.NgTracker), BackendDist(PathUtils.NestBackend)])
      == ["./dist/ng-tracker", "./dist/nest-backend"]
  {
    var r := Paths([FrontendDist(PathUtils.NgTracker), BackendDist(PathUtils.NestBackend)]);
    assert r[0] == "./dist/" + "ng-tracker" == "./dist/ng-tracker";
    assert r[1] == "./dist/" + "nest-backend" == "./dist/nest-backend";
  }

  /** The profile name of each frontend and backend combination. */
  function ComboName(f: PathUtils.Frontend, b: PathUtils.Backend): string {
    match (f, b)
    case (NgTracker, NestBackend) => "ng-nest"
    case (NgTracker, ExpressBackend) => "ng-express"
    case (NgTracker, SpringBackend) => "ng-spring"
    case (VueTracker, NestBackend) => "vue-nest"
    case (VueTracker, ExpressBackend) => "vue-express"
    case (VueTracker, SpringBackend) => "vue-spring"
    case (ReactTracker, NestBackend) => "react-nest"
    case (ReactTracker, ExpressBackend) => "react-express"
    case (ReactTracker, SpringBackend) => "react-spring"
  }

  /** Each of the nine combinations packages exactly its frontend's folder, then its backend's. */
  lemma ComboResources(f: PathUtils.Frontend, b: PathUtils.Backend)
    ensures ProfileResources(ComboName(f, b)) == Some([FrontendDist(f), BackendDist(b)])
  {
  }

  /** "all" packages the three frontends and the two Node backends, but not the Spring backend. */
  lemma AllPackagesNodeBackendsOnly()
    ensures ProfileResources("all").Some?
    ensures forall f: PathUtils.Frontend :: FrontendDist(f) in ProfileResources("all").value
    ensures var all := ProfileResources("all").value;
      BackendDist(PathUtils.NestBackend) in all && BackendDist(PathUtils.ExpressBackend) in all
      && BackendDist(PathUtils.SpringBackend) !in all
  {
    var all := ProfileResources("all").value;
    forall f: PathUtils.Frontend ensures FrontendDist(f) in all {
      match f
      case NgTracker => assert all[0] == FrontendDist(f);
      case VueTracker => assert all[1] == FrontendDist(f);
      case ReactTracker => assert all[2] == FrontendDist(f);
    }
  }

  /** What the build script builds for a combination profile is what is packaged for it: the
      build infers the same frontend and backend from the profile's name. */
  lemma BuiltIsPackaged(f: PathUtils.Frontend, b: PathUtils.Backend)
    ensures var p := BuildProfile.NormalizeProfile(ComboName(f, b));
      BuildProfile.InferFrontendProject(p) == f && BuildProfile.InferBackendProject(p) == b
      && ProfileResources(p) == Some([FrontendDist(f), BackendDist(b)])
  {
    var name := ComboName(f, b);
    ComboIsCanonical(f, b);
    match f {
      case NgTracker => NgInferred(name);
      case VueTracker => VueInferred(name);
      case ReactTracker => ReactInferred(name);
    }
    match b {
      case NestBackend => NestInferred(name);
      case ExpressBackend => ExpressInferred(name);
      case SpringBackend => SpringInferred(name);
    }
  }

  /** Combination names are already trimmed and lower-case. */
  lemma ComboIsCanonical(f: PathUtils.Frontend, b: PathUtils.Backend)
    ensures BuildProfile.NormalizeProfile(ComboName(f, b)) == ComboName(f, b)
  {
    match (f, b)
    case (NgTracker, NestBackend) => TrimLowerOfCanonical("ng-nest");
    case (NgTracker, ExpressBackend) => TrimLowerOfCanonical("ng-express");
    case (NgTracker, SpringBackend) => TrimLowerOfCanonical("ng-spring");
    case (VueTracker, NestBackend) => TrimLowerOfCanonical("vue-nest");
    case (VueTracker, ExpressBackend) => TrimLowerOfCanonical("vue-express");
    case (VueTracker, SpringBackend) => TrimLowerOfCanonical("vue-spring");
    case (ReactTracker, NestBackend) => TrimLowerOfCanonical("react-nest");
    case (ReactTracker, ExpressBackend) => TrimLowerOfCanonical("react-express");
    case (ReactTracker, SpringBackend) => TrimLowerOfCanonical("react-spring");
  }

  lemma NgInferred(name: string)
    requires name in {"ng-nest", "ng-express", "ng-spring"}
    ensures BuildProfile.InferFrontendProject(name) == PathUtils.NgTracker
  {
    MissingCharRefutes(name, "vue", 'v');
    MissingCharRefutes(name, "react", 'a');
  }

  lemma VueInferred(name: string)
    requires name in {"vue-nest", "vue-express", "vue-spring"}
    ensures BuildProfile.InferFrontendProject(name) == PathUtils.VueTracker
  {
    assert name == "vue" + name[3..];
    ContainsPrefix("vue", name[3..]);
  }

  lemma ReactInferred(name: string)
    requires name in {"react-nest", "react-express", "react-spring"}
    ensures BuildProfile.InferFrontendProject(name) == PathUtils.ReactTracker
  {
    MissingCharRefutes(name, "vue", 'v');
    assert name == "react" + name[5..];
    ContainsPrefix("react", name[5..]);
  }

  lemma NestInferred(name: string)
    requires name in {"ng-nest", "vue-nest", "react-nest"}
    ensures BuildProfile.InferBackendProject(name) == PathUtils.NestBackend
  {
    MissingCharRefutes(name, "express", 'x');
    MissingCharRefutes(name, "spring", 'p');
  }

  lemma ExpressInferred(name: string)
    requires name in {"ng-express", "vue-express", "react-express"}
    ensures BuildProfile.InferBackendProject(name) == PathUtils.ExpressBackend
  {
    var pre := name[..|name| - 7];
    assert name == pre + "express";
    ContainsPrefix("express", "");
    assert "express" + "" == "express";
    ContainsInSuffix(pre, "express", "express");
  }

  lemma SpringInferred(name: string)
    requires name in {"ng-spring", "vue-spring", "react-spring"}
    ensures BuildProfile.InferBackendProject(name) == PathUtils.SpringBackend
  {
    MissingCharRefutes(name, "express", 'x');
    var pre := name[..|name| - 6];
    assert name == pre + "spring";
    ContainsPrefix("spring", "");
    assert "spring" + "" == "spring";
    ContainsInSuffix(pre, "spring", "spring");
  }

  // ---------------------------------------------------------------- the lookup as written

  /** Lower-case names of properties every JavaScript object inherits. The profile is lower-cased
      before the lookup, so these two are the only inherited names it can hit. */
  predicate InheritedProperty(name: string) {
    name == "constructor" || name == "__proto__"
  }

  /** The lookup as written: indexing the table object finds an inherited property for a name
      that is not one of its own keys, that value is not nullish so the "ng-nest" fallback is not
      taken, and its `extraResource` is undefined: nothing is packaged. */
  function ExtraResourceAsWritten(profile: string): Option<seq<Folder>> {
    if ProfileResources(profile).Some? then ProfileResources(profile)
    else if InheritedProperty(profile) then None
    else ProfileResources("ng-nest")
  }

  /** APP_PROFILE=constructor packages no frontend and no backend as written, where every other
      unknown profile falls back to "ng-nest", as `ResolvedFolders` does for this one too. */
  lemma ConstructorProfileShipsNothing()
    ensures AppProfile(map["APP_PROFILE" := "constructor"]) == "constructor"
    ensures ExtraResourceAsWritten("constructor") == None
    ensures ResolvedFolders("constructor") == [FrontendDist(PathUtils.NgTracker), BackendDist(PathUtils.NestBackend)]
  {
    TrimLowerOfCanonical("constructor");
  }

  /** Apart from the two inherited names, the lookup as written agrees with `ResolvedFolders`. */
  lemma AsWrittenAgreesElsewhere(profile: string)
    requires !InheritedProperty(profile)
    ensures ExtraResourceAsWritten(profile) == Some(ResolvedFolders(profile))
  {
  }
}
