/** Building the trimmed Java runtime shipped with the Spring backend: the JDK providing `jdeps`
    and `jlink` is located, `jdeps` lists the modules the jar needs, and `jlink` builds the image
    from that list joined with a fixed baseline. Tool runs become the list of commands issued;
    what `jdeps` prints is an input. */
module PrepareJavaRuntime {
  import opened Wrappers
  import opened Text
  import Seqs
  import Sorting
  import PathUtils
  import FileUtils

  // ---------------------------------------------------------------- module list

  /** The modules always put into the image. */
  const Baseline: seq<string> := ["java.base", "java.logging", "java.management", "java.naming", "java.sql",
                                  "java.xml", "java.instrument", "jdk.crypto.ec", "jdk.unsupported", "jdk.zipfs"]

  function TrimAll(parts: seq<string>): (r: seq<string>)
    ensures |r| == |parts| && forall i :: 0 <= i < |parts| ==> r[i] == JsTrim(parts[i])
  {
    seq(|parts|, i requires 0 <= i < |parts| => JsTrim(parts[i]))
  }

  /** `filter(Boolean)` on strings: the empty ones go, the others keep their order. */
  function DropEmpty(parts: seq<string>): (r: seq<string>)
    ensures forall x :: x in r <==> x in parts && x != ""
    ensures (forall i :: 0 <= i < |parts| ==> parts[i] != "") ==> r == parts
  {
    if parts == [] then []
    else
      assert parts == [parts[0]] + parts[1..];
      (if parts[0] == "" then [] else [parts[0]]) + DropEmpty(parts[1..])
  }

  /** The module names in what `jdeps` printed: split at commas, trimmed, empty ones dropped. */
  function RequestedModules(raw: string): seq<string> {
    DropEmpty(TrimAll(Split(raw, ',')))
  }

  /** The requested modules together with the `extra` ones, each once, sorted: what the set
      holding both yields once sorted. */
  function SortedUnion(deps: seq<string>, extra: seq<string>): seq<string> {
    Sorting.Sort(Seqs.Unique(deps + extra))
  }

  /** The modules of the image in the order they are listed. */
  function ModuleList(raw: string): seq<string> {
    SortedUnion(RequestedModules(raw), Baseline)
  }

  /** What `normalizeModuleDeps` returns. */
  function NormalizedModules(raw: string): string {
    Join(ModuleList(raw), ",")
  }

  lemma UniqueStep(s: seq<string>, x: string)
    ensures Seqs.Unique(s + [x]) == if x in Seqs.Unique(s) then Seqs.Unique(s) else Seqs.Unique(s) + [x]
  {
    assert (s + [x])[..|s|] == s;
  }

  /** The loop adding the baseline modules one by one to the set built from the requested ones. */
  method AddModules(modules: seq<string>, deps: seq<string>, extra: seq<string>) returns (r: seq<string>)
    requires modules == Seqs.Unique(deps)
    ensures r == Seqs.Unique(deps + extra)
  {
    r := modules;
    ghost var seen := deps;
    assert deps + extra[..0] == seen;
    var i := 0;
    while i < |extra|
      invariant 0 <= i <= |extra|
      invariant seen == deps + extra[..i]
      invariant r == Seqs.Unique(seen)
    {
      UniqueStep(seen, extra[i]);
      Seqs.ConcatTakeStep(deps, extra, i);
      if extra[i] !in r {
        r := r + [extra[i]];
      }
      seen := seen + [extra[i]];
      i := i + 1;
    }
    assert extra[..|extra|] == extra;
  }

  /** `normalizeModuleDeps`: the set built from the requested modules, the baseline added to it,
      then sorted and comma-joined. The set is never empty once the baseline is in, so the second
      round of additions for an empty set never runs. */
  method NormalizeModuleDeps(raw: string) returns (r: string)
    ensures r == NormalizedModules(raw)
  {
    var deps := RequestedModules(raw);
    var modules := AddModules(Seqs.Unique(deps), deps, Baseline);
    r := Join(Sorting.Sort(modules), ",");
  }

  /** Every listed module is a trimmed, non-empty name without a comma. */
  predicate CleanName(x: string) {
    x != "" && ',' !in x && JsTrim(x) == x
  }

  lemma RequestedModulesAreClean(raw: string)
    ensures forall x :: x in RequestedModules(raw) ==> CleanName(x)
  {
    var parts := Split(raw, ',');
    forall x | x in RequestedModules(raw) ensures CleanName(x) {
      var i :| 0 <= i < |parts| && TrimAll(parts)[i] == x;
      TrimKeepsCharacters(parts[i], IsJsSpace);
      TrimIdempotent(parts[i], IsJsSpace);
    }
  }

  lemma BaselineIsClean()
    ensures forall x :: x in Baseline ==> CleanName(x)
  {
    forall i | 0 <= i < |Baseline| ensures CleanName(Baseline[i]) {
      DottedNameIsClean(Baseline[i]);
    }
  }

  /** A non-empty name of lower-case letters and dots is clean. */
  lemma DottedNameIsClean(x: string)
    requires x != [] && forall k :: 0 <= k < |x| ==> x[k] == '.' || 'a' <= x[k] <= 'z'
    ensures CleanName(x)
  {
    TrimOfTrimmed(x, IsJsSpace);
  }

  /** The sorted union is sorted, has no duplicates and holds exactly the modules of both inputs. */
  lemma SortedUnionShape(deps: seq<string>, extra: seq<string>)
    ensures var list := SortedUnion(deps, extra);
      Sorting.Sorted(list) && Seqs.NoDuplicates(list)
      && forall x :: x in list <==> x in deps || x in extra
  {
    var modules := Seqs.Unique(deps + extra);
    Seqs.PermutationKeepsNoDuplicates(modules, Sorting.Sort(modules));
    Sorting.SortSameElements(modules);
    assert forall x :: x in modules <==> x in deps + extra;
  }

  /** A non-empty list of clean names, comma-joined, reads back as itself. */
  lemma ReadBackClean(list: seq<string>)
    requires list != []
    requires forall x :: x in list ==> CleanName(x)
    ensures Split(Join(list, ","), ',') == list
    ensures RequestedModules(Join(list, ",")) == list
  {
    assert forall k :: 0 <= k < |list| ==> CleanName(list[k]);
    SplitJoin(list, ',');
    assert TrimAll(list) == list;
  }

  /** Taking the sorted union of a sorted union with the same extra modules changes nothing. */
  lemma SortedUnionStable(deps: seq<string>, extra: seq<string>)
    ensures SortedUnion(SortedUnion(deps, extra), extra) == SortedUnion(deps, extra)
  {
    var list := SortedUnion(deps, extra);
    SortedUnionShape(deps, extra);
    Seqs.UniqueOfDistinctExtended(list, extra);
    Sorting.SortOfSorted(list);
  }

  /** The module list: sorted, without duplicates, holding exactly the requested modules and the
      baseline ones, each a clean name; so every baseline module is always there. */
  lemma ModuleListShape(raw: string)
    ensures var list := ModuleList(raw);
      Sorting.Sorted(list) && Seqs.NoDuplicates(list)
      && (forall x :: x in list <==> x in RequestedModules(raw) || x in Baseline)
      && (forall x :: x in list ==> CleanName(x))
  {
    SortedUnionShape(RequestedModules(raw), Baseline);
    RequestedModulesAreClean(raw);
    BaselineIsClean();
  }

  /** The output names every baseline module and every requested one, and nothing else. */
  lemma NormalizedModulesNamesBaseline(raw: string)
    ensures forall m :: m in Split(NormalizedModules(raw), ',') <==> m in RequestedModules(raw) || m in Baseline
  {
    ModuleListShape(raw);
    assert Baseline[0] in ModuleList(raw);
    ReadBackClean(ModuleList(raw));
  }

  /** Normalising an already normalised list changes nothing. */
  lemma NormalizeModuleDepsIdempotent(raw: string)
    ensures NormalizedModules(NormalizedModules(raw)) == NormalizedModules(raw)
  {
    ModuleListShape(raw);
    assert Baseline[0] in ModuleList(raw);
    ReadBackClean(ModuleList(raw));
    SortedUnionStable(RequestedModules(raw), Baseline);
  }

  // ---------------------------------------------------------------- the toolchain

  datatype Tool = Jdeps | Jlink

  function ToolName(tool: Tool): string {
    match tool
    case Jdeps => "jdeps"
    case Jlink => "jlink"
  }

  /** `getBin`: the tool in the `bin` directory of the JDK, with ".exe" on Windows. */
  function GetBin(javaHome: string, tool: Tool, win32: bool): string {
    PathUtils.PathJoin(PathUtils.PathJoin(javaHome, "bin"), ToolName(tool) + (if win32 then ".exe" else ""))
  }

  /** The tool lies in `<javaHome>/bin/`, is named after the tool, and ends in ".exe" exactly on
      Windows; so the two tools of one home are distinct files. */
  lemma GetBinShape(javaHome: string, tool: Tool, win32: bool)
    ensures var r := GetBin(javaHome, tool, win32);
      StartsWith(r, javaHome + "/bin/") && |r| >= |javaHome| + 10
      && r[|javaHome| + 5..|javaHome| + 10] == ToolName(tool)
      && (EndsWith(r, ".exe") <==> win32)
    ensures GetBin(javaHome, Jdeps, win32) != GetBin(javaHome, Jlink, win32)
  {
    var exe := ToolName(tool) + (if win32 then ".exe" else "");
    var dir := javaHome + "/bin/";
    assert GetBin(javaHome, tool, win32) == dir + exe;
    ToolFileShape(tool, win32);
    AfterPrefix(dir, exe, ".exe");
    assert "jdeps" != "jlink" by { assert "jdeps"[1] != "jlink"[1]; }
  }

  /** The tool's file name starts with the tool's five-letter name and ends in ".exe" exactly on
      Windows. */
  lemma ToolFileShape(tool: Tool, win32: bool)
    ensures var exe := ToolName(tool) + (if win32 then ".exe" else "");
      |exe| >= 5 && exe[..5] == ToolName(tool) && (EndsWith(exe, ".exe") <==> win32)
  {
    var exe := ToolName(tool) + (if win32 then ".exe" else "");
    assert exe[..5] == ToolName(tool);
    if !win32 {
      assert exe[|exe| - 4] != '.';
    }
  }

  /** A name placed after a directory starts with it, keeps its first five characters right
      after it, and keeps its ending. */
  lemma AfterPrefix(dir: string, x: string, suffix: string)
    requires |x| >= 5 && |suffix| <= |x|
    ensures StartsWith(dir + x, dir) && (dir + x)[|dir|..|dir| + 5] == x[..5]
    ensures EndsWith(dir + x, suffix) <==> EndsWith(x, suffix)
  {
    assert (dir + x)[|dir + x| - |suffix|..] == x[|x| - |suffix|..];
  }

  /** `hasJlinkTools`: a JDK home is usable when it is set and holds both tools. */
  predicate HasJlinkTools(javaHome: string, win32: bool, existing: set<string>) {
    javaHome != "" && GetBin(javaHome, Jdeps, win32) in existing && GetBin(javaHome, Jlink, win32) in existing
  }

  /** One entry of a directory listing. */
  datatype DirEntry = DirEntry(name: string, isDirectory: bool)

  /** The readable directories and what they list; a directory missing from the map cannot be
      read. */
  type Listings = map<string, seq<DirEntry>>

  /** The paths of the subdirectories of `dir`, in listing order. */
  function SubDirs(dir: string, entries: seq<DirEntry>): seq<string> {
    if entries == [] then []
    else (if entries[0].isDirectory then [PathUtils.PathJoin(dir, entries[0].name)] else []) + SubDirs(dir, entries[1..])
  }

  /** The subdirectory paths are exactly those of the directory entries, in listing order. */
  lemma {:induction false} SubDirsMembers(dir: string, entries: seq<DirEntry>)
    ensures |SubDirs(dir, entries)| <= |entries|
    ensures forall p :: p in SubDirs(dir, entries) <==>
      exists k :: 0 <= k < |entries| && entries[k].isDirectory && p == PathUtils.PathJoin(dir, entries[k].name)
  {
    if entries != [] {
      SubDirsMembers(dir, entries[1..]);
      assert forall k :: 1 <= k < |entries| ==> entries[k] == entries[1..][k - 1];
    }
  }

  /** The subdirectories of a first-level directory; one that cannot be read has none. */
  function Level2(p1: string, listings: Listings): seq<string> {
    if p1 in listings then SubDirs(p1, listings[p1]) else []
  }

  /** The homes tried, in order: each first-level directory, followed by its own subdirectories. */
  function SearchOrder(level1: seq<string>, listings: Listings): seq<string> {
    if level1 == [] then []
    else [level1[0]] + Level2(level1[0], listings) + SearchOrder(level1[1..], listings)
  }

  /** The first candidate holding both tools. */
  function FirstWithTools(candidates: seq<string>, win32: bool, existing: set<string>): Option<string> {
    if candidates == [] then None
    else if HasJlinkTools(candidates[0], win32, existing) then Some(candidates[0])
    else FirstWithTools(candidates[1..], win32, existing)
  }

  /** The home found holds both tools and no earlier candidate does; nothing is found exactly
      when no candidate holds both tools. */
  lemma FirstWithToolsIsFirst(candidates: seq<string>, win32: bool, existing: set<string>)
    ensures var r := FirstWithTools(candidates, win32, existing);
      (r.Some? ==> (HasJlinkTools(r.value, win32, existing) &&
         exists k :: 0 <= k < |candidates| && candidates[k] == r.value
           && forall j :: 0 <= j < k ==> !HasJlinkTools(candidates[j], win32, existing)))
      && (r.None? <==> forall c :: c in candidates ==> !HasJlinkTools(c, win32, existing))
  {
    FirstWithToolsFound(candidates, win32, existing);
    FirstWithToolsNone(candidates, win32, existing);
  }

  lemma {:induction false} FirstWithToolsFound(candidates: seq<string>, win32: bool, existing: set<string>)
    ensures var r := FirstWithTools(candidates, win32, existing);
      r.Some? ==> (HasJlinkTools(r.value, win32, existing) &&
         exists k :: 0 <= k < |candidates| && candidates[k] == r.value
           && forall j :: 0 <= j < k ==> !HasJlinkTools(candidates[j], win32, existing))
  {
    if candidates != [] && !HasJlinkTools(candidates[0], win32, existing) {
      var tail := candidates[1..];
      FirstWithToolsFound(tail, win32, existing);
      var r := FirstWithTools(tail, win32, existing);
      if r.Some? {
        var k :| 0 <= k < |tail| && tail[k] == r.value
          && forall j :: 0 <= j < k ==> !HasJlinkTools(tail[j], win32, existing);
        assert candidates[k + 1] == r.value;
        assert forall j :: 1 <= j < k + 1 ==> candidates[j] == tail[j - 1];
      }
    }
  }

  lemma {:induction false} FirstWithToolsNone(candidates: seq<string>, win32: bool, existing: set<string>)
    ensures FirstWithTools(candidates, win32, existing).None?
      <==> forall c :: c in candidates ==> !HasJlinkTools(c, win32, existing)
  {
    if candidates != [] && !HasJlinkTools(candidates[0], win32, existing) {
      FirstWithToolsNone(candidates[1..], win32, existing);
      assert candidates == [candidates[0]] + candidates[1..];
    }
  }

  lemma FirstWithToolsCons(x: string, rest: seq<string>, win32: bool, existing: set<string>)
    ensures FirstWithTools([x] + rest, win32, existing)
      == if HasJlinkTools(x, win32, existing) then Some(x) else FirstWithTools(rest, win32, existing)
  {
    assert ([x] + rest)[1..] == rest;
  }

  lemma SearchOrderStep(level1: seq<string>, i: nat, listings: Listings)
    requires i < |level1|
    ensures SearchOrder(level1[i..], listings)
      == [level1[i]] + (Level2(level1[i], listings) + SearchOrder(level1[i + 1..], listings))
  {
    assert level1[i..][1..] == level1[i + 1..];
  }

  /** Searching a concatenation searches the first part, then the second. */
  lemma {:induction false} FirstWithToolsAppend(a: seq<string>, b: seq<string>, win32: bool, existing: set<string>)
    ensures FirstWithTools(a + b, win32, existing)
      == if FirstWithTools(a, win32, existing).Some? then FirstWithTools(a, win32, existing)
         else FirstWithTools(b, win32, existing)
  {
    if a == [] {
      assert a + b == b;
    } else {
      FirstWithToolsAppend(a[1..], b, win32, existing);
      assert a + b == [a[0]] + (a[1..] + b);
      FirstWithToolsCons(a[0], a[1..] + b, win32, existing);
    }
  }

  /** The inner loop of the search: the subdirectories of one first-level directory, in order. */
  method FirstSubDirWithTools(level2: seq<string>, win32: bool, existing: set<string>) returns (r: Option<string>)
    ensures r == FirstWithTools(level2, win32, existing)
  {
    assert level2[0..] == level2;
    var j := 0;
    while j < |level2|
      invariant 0 <= j <= |level2|
      invariant FirstWithTools(level2, win32, existing) == FirstWithTools(level2[j..], win32, existing)
    {
      assert level2[j..] == [level2[j]] + level2[j + 1..];
      FirstWithToolsCons(level2[j], level2[j + 1..], win32, existing);
      if HasJlinkTools(level2[j], win32, existing) {
        return Some(level2[j]);
      }
      j := j + 1;
    }
    return None;
  }

  /** What `tryResolveExistingJavaHome` finds under `baseDir`. */
  function JavaHomeSearch(baseDir: string, existing: set<string>, listings: Listings, win32: bool): Option<string> {
    if baseDir !in existing || baseDir !in listings then None
    else FirstWithTools(SearchOrder(SubDirs(baseDir, listings[baseDir]), listings), win32, existing)
  }

  /** `tryResolveExistingJavaHome`: the first-level directories in listing order, each tried
      itself and then through its own subdirectories, the first with both tools returned. A
      subdirectory that cannot be read is skipped; a base that cannot be read gives nothing. */
  method TryResolveExistingJavaHome(baseDir: string, existing: set<string>, listings: Listings, win32: bool)
    returns (r: Option<string>)
    ensures r == JavaHomeSearch(baseDir, existing, listings, win32)
  {
    if baseDir !in existing || baseDir !in listings {
      return None;
    }
    var level1 := SubDirs(baseDir, listings[baseDir]);
    ghost var found := FirstWithTools(SearchOrder(level1, listings), win32, existing);
    assert found == JavaHomeSearch(baseDir, existing, listings, win32);
    assert level1[0..] == level1;
    var i := 0;
    while i < |level1|
      invariant 0 <= i <= |level1|
      invariant found == FirstWithTools(SearchOrder(level1[i..], listings), win32, existing)
    {
      var p1 := level1[i];
      ghost var rest := SearchOrder(level1[i + 1..], listings);
      var level2 := Level2(p1, listings);
      SearchOrderStep(level1, i, listings);
      FirstWithToolsCons(p1, level2 + rest, win32, existing);
      if HasJlinkTools(p1, win32, existing) {
        return Some(p1);
      }
      var sub := FirstSubDirWithTools(level2, win32, existing);
      FirstWithToolsAppend(level2, rest, win32, existing);
      if sub.Some? {
        return sub;
      }
      assert found == FirstWithTools(rest, win32, existing);
      i := i + 1;
    }
    assert level1[i..] == [];
    return None;
  }

  /** The JDK home the script uses: JAVA_HOME when it holds both tools, else the one found under
      `./java-runtime`. */
  function ToolHome(env: PathUtils.Env, cwd: string, existing: set<string>, listings: Listings, win32: bool)
    : (home: Option<string>)
    ensures home.Some? ==> HasJlinkTools(home.value, win32, existing)
  {
    var envHome := PathUtils.EnvOr(env, "JAVA_HOME");
    var base := PathUtils.PathJoin(cwd, "java-runtime");
    JavaHomeSearchHasTools(base, existing, listings, win32);
    if HasJlinkTools(envHome, win32, existing) then Some(envHome)
    else JavaHomeSearch(base, existing, listings, win32)
  }

  /** A home found by the search holds both tools. */
  lemma JavaHomeSearchHasTools(baseDir: string, existing: set<string>, listings: Listings, win32: bool)
    ensures var found := JavaHomeSearch(baseDir, existing, listings, win32);
      found.Some? ==> HasJlinkTools(found.value, win32, existing)
  {
    if baseDir in existing && baseDir in listings {
      FirstWithToolsIsFirst(SearchOrder(SubDirs(baseDir, listings[baseDir]), listings), win32, existing);
    }
  }

  const ToolchainMissing := "Unable to locate jdeps/jlink toolchain. Set JAVA_HOME to a JDK 25 installation, or place a JDK 25 under ./java-runtime/ (ignored by git)."

  /** `resolveToolJavaHome`: JAVA_HOME when it holds both tools, else the JDK found under
      `./java-runtime`, else an error. The home returned always holds both tools, so the second
      check of the found home never rejects it. */
  method ResolveToolJavaHome(env: PathUtils.Env, cwd: string, existing: set<string>, listings: Listings, win32: bool)
    returns (r: Result<string, string>)
    ensures var home := ToolHome(env, cwd, existing, listings, win32);
      r == if home.Some? then Ok(home.value) else Err(ToolchainMissing)
    ensures r.Ok? ==> HasJlinkTools(r.value, win32, existing)
  {
    JavaHomeSearchHasTools(PathUtils.PathJoin(cwd, "java-runtime"), existing, listings, win32);
    var envHome := PathUtils.EnvOr(env, "JAVA_HOME");
    if HasJlinkTools(envHome, win32, existing) {
      return Ok(envHome);
    }
    var repoHome := TryResolveExistingJavaHome(PathUtils.PathJoin(cwd, "java-runtime"), existing, listings, win32);
    if repoHome.Some? && repoHome.value != "" && HasJlinkTools(repoHome.value, win32, existing) {
      return Ok(repoHome.value);
    }
    return Err(ToolchainMissing);
  }

  // ---------------------------------------------------------------- the script

  /** One tool run: the program and its arguments. */
  datatype Command = Command(program: string, args: seq<string>)

  function JdepsCommand(javaHome: string, win32: bool, jarPath: string): Command {
    Command(GetBin(javaHome, Jdeps, win32),
            ["--multi-release", "25", "--ignore-missing-deps", "--recursive", "--print-module-deps", jarPath])
  }

  function JlinkCommand(javaHome: string, win32: bool, modules: string, outImage: string): Command {
    Command(GetBin(javaHome, Jlink, win32),
            ["--add-modules", modules, "--strip-debug", "--no-man-pages", "--no-header-files", "--compress=2",
             "--output", outImage])
  }

  /** The two tool runs for a home: `jdeps` on the jar, then `jlink` into `<outRoot>/runtime` with
      the normalised list of what `jdeps` printed. */
  function RuntimeRuns(home: string, win32: bool, jarPath: string, outRoot: string, jdepsOutput: string)
    : seq<Command>
  {
    [JdepsCommand(home, win32, jarPath),
     JlinkCommand(home, win32, NormalizedModules(JsTrim(jdepsOutput)), PathUtils.PathJoin(outRoot, "runtime"))]
  }

  /** Where the Spring build leaves the jar. */
  function JarPath(cwd: string): string {
    PathUtils.PathJoin(cwd, "dist/spring-backend/app.jar")
  }

  /** The folder the runtime image is built into. */
  function OutRoot(cwd: string): string {
    PathUtils.PathJoin(cwd, "dist/java-runtime")
  }

  function JarMissing(jarPath: string): string {
    "Spring jar not found at " + jarPath + ". Build it first (e.g. mvn package + tools/prepare-spring-dist.ts)."
  }

  /** `main`. The jar must exist and a toolchain be found; the output folder is emptied and
      created; `jdeps` runs on the jar and `jlink` builds the image from the normalised list of
      what `jdeps` printed (trimmed, as `run` returns it). */
  method PrepareRuntime(cwd: string, env: PathUtils.Env, win32: bool, fs: FileUtils.FileStore,
                        listings: Listings, jdepsOutput: string)
    returns (runs: seq<Command>, error: Option<string>)
    modifies fs
    ensures var jarPath := JarPath(cwd);
      var home := ToolHome(env, cwd, old(fs.files).Keys + old(fs.dirs), listings, win32);
      (jarPath !in old(fs.files) ==>
         runs == [] && fs.files == old(fs.files) && fs.dirs == old(fs.dirs) && error == Some(JarMissing(jarPath)))
      && (jarPath in old(fs.files) && home.None? ==>
         runs == [] && fs.files == old(fs.files) && fs.dirs == old(fs.dirs) && error == Some(ToolchainMissing))
      && (jarPath in old(fs.files) && home.Some? ==>
         error == None && Built(old(fs.files), old(fs.dirs), fs.files, fs.dirs, OutRoot(cwd))
         && runs == RuntimeRuns(home.value, win32, jarPath, OutRoot(cwd), jdepsOutput))
  {
    runs := [];
    var jarPath := JarPath(cwd);
    if jarPath !in fs.files {
      return [], Some(JarMissing(jarPath));
    }
    var javaHome := ResolveToolJavaHome(env, cwd, fs.files.Keys + fs.dirs, listings, win32);
    if javaHome.Err? {
      return [], Some(javaHome.error);
    }
    runs := BuildImage(fs, javaHome.value, win32, jarPath, OutRoot(cwd), jdepsOutput);
    error := None;
  }

  /** The output folder after the build starts: whatever was at it or under it is gone, and it
      exists with the directories above it. */
  ghost predicate Built(files0: map<string, string>, dirs0: set<string>,
                        files: map<string, string>, dirs: set<string>, outRoot: string)
  {
    var present := outRoot in files0 || outRoot in dirs0;
    files == (if present then FileUtils.OutsideTree(files0, outRoot) else files0)
    && dirs == (if present then FileUtils.DirsOutside(dirs0, outRoot) else dirs0) + FileUtils.DirChain(outRoot)
  }

  /** `rmSync` of the output folder when it exists, then `mkdirSync` of it. */
  method ResetOutRoot(fs: FileUtils.FileStore, outRoot: string)
    modifies fs
    ensures Built(old(fs.files), old(fs.dirs), fs.files, fs.dirs, outRoot)
  {
    if fs.Exists(outRoot) {
      fs.RemoveTree(outRoot);
    }
    fs.MakeDirs(outRoot);
  }

  /** The steps of `main` once the jar and a JDK home are known: the output folder is emptied
      and created, `jdeps` runs on the jar, and `jlink` builds the image. */
  method BuildImage(fs: FileUtils.FileStore, home: string, win32: bool, jarPath: string, outRoot: string,
                    jdepsOutput: string)
    returns (runs: seq<Command>)
    modifies fs
    ensures Built(old(fs.files), old(fs.dirs), fs.files, fs.dirs, outRoot)
    ensures runs == RuntimeRuns(home, win32, jarPath, outRoot, jdepsOutput)
  {
    ResetOutRoot(fs, outRoot);
    runs := RunTools(home, win32, jarPath, outRoot, jdepsOutput);
  }

  /** `jdeps` on the jar, then `jlink` with the module list normalised from what `jdeps` printed. */
  method RunTools(home: string, win32: bool, jarPath: string, outRoot: string, jdepsOutput: string)
    returns (runs: seq<Command>)
    ensures runs == RuntimeRuns(home, win32, jarPath, outRoot, jdepsOutput)
  {
    var outImage := PathUtils.PathJoin(outRoot, "runtime");
    runs := [JdepsCommand(home, win32, jarPath)];
    var moduleDeps := NormalizeModuleDeps(JsTrim(jdepsOutput));
    runs := runs + [JlinkCommand(home, win32, moduleDeps, outImage)];
  }
}
