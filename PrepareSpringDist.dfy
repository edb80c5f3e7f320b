/** Assembling the Spring distribution: the newest runnable jar of the Maven output is copied to
    `dist/spring-backend/app.jar`. The TypeScript version also removes a leftover `app/` folder
    and resets the two log files; the older JavaScript version does only the copy. */
module PrepareSpringDist {
  import opened Wrappers
  import opened Text
  import Sorting
  import PathUtils
  import FileUtils

  /** One entry of a directory listing. */
  datatype Entry = Entry(name: string, isFile: bool)

  /** A runnable jar: ends in ".jar" and is neither a sources nor a javadoc jar, ignoring case. */
  predicate IsRunnableJar(name: string) {
    var n := ToLower(name);
    EndsWith(n, ".jar") && !EndsWith(n, ".jar.original") && !Contains(n, "sources") && !Contains(n, "javadoc")
  }

  /** The ".jar.original" filter never removes anything: a name ending in ".jar" cannot end in
      ".jar.original". */
  lemma OriginalFilterIsRedundant(name: string)
    requires EndsWith(ToLower(name), ".jar")
    ensures !EndsWith(ToLower(name), ".jar.original")
  {
    var n := ToLower(name);
    assert n[|n| - 1] == 'r';
  }

  /** The names of the runnable jars of a listing, in listing order. */
  function JarNames(entries: seq<Entry>): (names: seq<string>)
    ensures forall x :: x in names <==> exists k :: 0 <= k < |entries| && entries[k].isFile
                                                  && IsRunnableJar(entries[k].name) && entries[k].name == x
  {
    if entries == [] then []
    else
      var rest := JarNames(entries[1..]);
      assert forall k :: 1 <= k < |entries| ==> entries[k] == entries[1..][k - 1];
      if entries[0].isFile && IsRunnableJar(entries[0].name) then [entries[0].name] + rest else rest
  }

  /** `pickJar`: nothing when the directory is missing or holds no runnable jar, else the path of
      the jar whose name sorts last, which lies in the folder it was picked from. */
  function PickJar(targetDir: string, present: bool, entries: seq<Entry>): (r: Option<string>)
    ensures r.Some? ==> present && StartsWith(r.value, targetDir + "/")
  {
    if !present then None
    else
      var jars := Sorting.Sort(JarNames(entries));
      if jars == [] then None
      else
        assert PathUtils.PathJoin(targetDir, jars[|jars| - 1]) == (targetDir + "/") + jars[|jars| - 1];
        Some(PathUtils.PathJoin(targetDir, jars[|jars| - 1]))
  }

  /** There is a jar to pick exactly when the directory exists and holds a runnable jar. */
  lemma PickJarSomeIff(targetDir: string, present: bool, entries: seq<Entry>)
    ensures PickJar(targetDir, present, entries).Some? <==>
      present && exists k :: 0 <= k < |entries| && entries[k].isFile && IsRunnableJar(entries[k].name)
  {
    var names := JarNames(entries);
    assert |Sorting.Sort(names)| == |names|;
    assert forall k :: 0 <= k < |entries| && entries[k].isFile && IsRunnableJar(entries[k].name) ==>
      entries[k].name in names;
    if present && names != [] {
      assert names[0] in names;
    }
  }

  /** The jar picked is a runnable file of the listing whose name no other runnable jar's name
      sorts after. */
  lemma PickJarIsGreatest(targetDir: string, present: bool, entries: seq<Entry>)
    requires PickJar(targetDir, present, entries).Some?
    ensures exists k :: (0 <= k < |entries| && entries[k].isFile && IsRunnableJar(entries[k].name)
      && PickJar(targetDir, present, entries) == Some(PathUtils.PathJoin(targetDir, entries[k].name))
      && forall j :: 0 <= j < |entries| && entries[j].isFile && IsRunnableJar(entries[j].name) ==>
           Sorting.LexLeq(entries[j].name, entries[k].name))
  {
    var names := JarNames(entries);
    var jars := Sorting.Sort(names);
    Sorting.SortSameElements(names);
    Sorting.SortedLastIsMax(jars);
    var top := jars[|jars| - 1];
    assert top in names;
    var k :| 0 <= k < |entries| && entries[k].isFile && IsRunnableJar(entries[k].name) && entries[k].name == top;
    assert PickJar(targetDir, present, entries) == Some(PathUtils.PathJoin(targetDir, entries[k].name));
    forall j | 0 <= j < |entries| && entries[j].isFile && IsRunnableJar(entries[j].name)
      ensures Sorting.LexLeq(entries[j].name, entries[k].name)
    {
      assert entries[j].name in names;
      assert entries[j].name in jars;
    }
  }

  /** The jar picked does not depend on the order of the listing. */
  lemma PickJarIgnoresListingOrder(targetDir: string, present: bool, a: seq<Entry>, b: seq<Entry>)
    requires multiset(JarNames(a)) == multiset(JarNames(b))
    ensures PickJar(targetDir, present, a) == PickJar(targetDir, present, b)
  {
    Sorting.SortedUnique(Sorting.Sort(JarNames(a)), Sorting.Sort(JarNames(b)));
  }

  /** The two versions of the script. */
  datatype Script = TsScript | MjsScript

  /** Maven's output folder for the root `pom.xml`, tried first. */
  function RootTarget(cwd: string): string {
    PathUtils.PathJoin(cwd, "target")
  }

  /** The output folder of older layouts, tried second. */
  function AppTarget(cwd: string): string {
    PathUtils.PathJoin(cwd, "apps/spring-backend/target")
  }

  function DistDir(cwd: string): string {
    PathUtils.PathJoin(cwd, "dist/spring-backend")
  }

  /** The stable name the runtime and the packager look for. */
  function AppJar(cwd: string): string {
    PathUtils.PathJoin(DistDir(cwd), "app.jar")
  }

  /** A leftover folder of older builds that held a second copy of the jar. */
  function AppFolder(cwd: string): string {
    PathUtils.PathJoin(DistDir(cwd), "app")
  }

  function NoJarFound(cwd: string): string {
    "No .jar found under " + RootTarget(cwd) + " or " + AppTarget(cwd) + ". Did \"mvn -f pom.xml package\" run?"
  }

  /** The error `copyFileSync` throws for a source that is not there. */
  function CopyFailed(source: string, dest: string): string {
    "ENOENT: no such file or directory, copyfile '" + source + "' -> '" + dest + "'"
  }

  /** `pickJar(rootTarget) ?? pickJar(appTarget)`. */
  function ChosenJar(cwd: string, dirs: set<string>, rootEntries: seq<Entry>, appEntries: seq<Entry>): Option<string> {
    match PickJar(RootTarget(cwd), RootTarget(cwd) in dirs, rootEntries)
    case Some(j) => Some(j)
    case None => PickJar(AppTarget(cwd), AppTarget(cwd) in dirs, appEntries)
  }

  /** A string that starts with `a` is neither `b` nor under `b` when `a` and `b` differ at `i`. */
  lemma PrefixesDiffer(s: string, a: string, b: string, i: nat)
    requires StartsWith(s, a) && i < |a| && i < |b| && a[i] != b[i]
    ensures s != b && !StartsWith(s, b + "/")
  {
    assert s[i] == a[i];
  }

  /** The jar chosen lies in one of the two target folders, so removing `app/` never takes it. */
  lemma ChosenJarIsNotUnderAppFolder(cwd: string, dirs: set<string>, rootEntries: seq<Entry>, appEntries: seq<Entry>)
    requires ChosenJar(cwd, dirs, rootEntries, appEntries).Some?
    ensures var jar := ChosenJar(cwd, dirs, rootEntries, appEntries).value;
      jar != AppFolder(cwd) && !StartsWith(jar, AppFolder(cwd) + "/")
  {
    var jar := ChosenJar(cwd, dirs, rootEntries, appEntries).value;
    var i := |cwd| + 1;
    assert AppFolder(cwd)[i] == 'd';
    if PickJar(RootTarget(cwd), RootTarget(cwd) in dirs, rootEntries).Some? {
      assert (RootTarget(cwd) + "/")[i] == 't';
      PrefixesDiffer(jar, RootTarget(cwd) + "/", AppFolder(cwd), i);
    } else {
      assert (AppTarget(cwd) + "/")[i] == 'a';
      PrefixesDiffer(jar, AppTarget(cwd) + "/", AppFolder(cwd), i);
    }
  }

  /** The TypeScript script removes a leftover `app/` folder: one exists once the distribution
      folder is ensured, and `rmSync` does not fail (a failure only prints a warning). */
  predicate RemovesAppFolder(script: Script, files0: map<string, string>, dirs0: set<string>, cwd: string,
                             removeFails: bool)
  {
    script == TsScript && !removeFails
    && (AppFolder(cwd) in files0 || AppFolder(cwd) in FileUtils.EnsuredDirs(files0, dirs0, DistDir(cwd)))
  }

  /** The files before the copy. */
  function StagedFiles(script: Script, files0: map<string, string>, dirs0: set<string>, cwd: string,
                       removeFails: bool): map<string, string>
  {
    if RemovesAppFolder(script, files0, dirs0, cwd, removeFails) then FileUtils.OutsideTree(files0, AppFolder(cwd))
    else files0
  }

  /** The directories once `dist/spring-backend` is ensured and `app/` is handled; the copy and the
      log reset add none. */
  function StagedDirs(script: Script, files0: map<string, string>, dirs0: set<string>, cwd: string,
                      removeFails: bool): set<string>
  {
    var dirs1 := FileUtils.EnsuredDirs(files0, dirs0, DistDir(cwd));
    if RemovesAppFolder(script, files0, dirs0, cwd, removeFails) then FileUtils.DirsOutside(dirs1, AppFolder(cwd))
    else dirs1
  }

  /** The files at the end: `app.jar` holds the jar's bytes and, in the TypeScript script, both
      log files are reset. */
  function Delivered(script: Script, files1: map<string, string>, jar: string, cwd: string): map<string, string>
    requires jar in files1
  {
    var copied := files1[AppJar(cwd) := files1[jar]];
    if script == TsScript then FileUtils.LogsReset(copied, DistDir(cwd)) else copied
  }

  /** `main`. The root `target/` directory is tried first, `apps/spring-backend/target` second;
      listings come with each directory. No jar, or a jar that cannot be copied, ends the script
      with an error. */
  method PrepareDist(script: Script, cwd: string, fs: FileUtils.FileStore,
                     rootEntries: seq<Entry>, appEntries: seq<Entry>,
                     removeFails: bool, unlinkFailure: FileUtils.UnlinkFailure)
    returns (dest: Option<string>, error: Option<string>)
    modifies fs
    ensures var jar := ChosenJar(cwd, old(fs.dirs), rootEntries, appEntries);
      jar.None? ==> dest == None && error == Some(NoJarFound(cwd)) && fs.files == old(fs.files) && fs.dirs == old(fs.dirs)
    ensures var jar := ChosenJar(cwd, old(fs.dirs), rootEntries, appEntries);
      var files1 := StagedFiles(script, old(fs.files), old(fs.dirs), cwd, removeFails);
      jar.Some? ==>
        fs.dirs == StagedDirs(script, old(fs.files), old(fs.dirs), cwd, removeFails)
        && (jar.value !in files1 ==> dest == None && error == Some(CopyFailed(jar.value, AppJar(cwd))) && fs.files == files1)
        && (jar.value in files1 ==> dest == Some(AppJar(cwd)) && error == None && fs.files == Delivered(script, files1, jar.value, cwd))
    ensures var jar := ChosenJar(cwd, old(fs.dirs), rootEntries, appEntries);
      jar.Some? && jar.value in old(fs.files) ==> dest == Some(AppJar(cwd)) && error == None
    ensures var jar := ChosenJar(cwd, old(fs.dirs), rootEntries, appEntries);
      script == MjsScript && jar.Some? && jar.value in old(fs.files) ==> fs.files == old(fs.files)[AppJar(cwd) := old(fs.files)[jar.value]]
  {
    var jar := PickJar(RootTarget(cwd), RootTarget(cwd) in fs.dirs, rootEntries);
    if jar.None? {
      jar := PickJar(AppTarget(cwd), AppTarget(cwd) in fs.dirs, appEntries);
    }
    assert jar == ChosenJar(cwd, old(fs.dirs), rootEntries, appEntries);
    if jar.None? {
      return None, Some(NoJarFound(cwd));
    }
    ChosenJarIsNotUnderAppFolder(cwd, old(fs.dirs), rootEntries, appEntries);
    var distDir := DistDir(cwd);
    fs.EnsureDir(distDir);
    if script == TsScript {
      var appFolder := AppFolder(cwd);
      if fs.Exists(appFolder) && !removeFails {
        fs.RemoveTree(appFolder);
      }
    }
    var target := AppJar(cwd);
    if jar.value !in fs.files {
      return None, Some(CopyFailed(jar.value, target));
    }
    fs.CopyFile(jar.value, target);
    if script == TsScript {
      fs.ResetLogs(distDir, unlinkFailure);
    }
    dest, error := Some(target), None;
  }
}
