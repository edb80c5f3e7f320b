/** The file system as the launcher and the build scripts see it, and best-effort logging:
    one line `<timestamp> - <TYPE>: <message>` appended to `<dir>/<type>.log`, with every
    file-system failure swallowed. */
module FileUtils {
  import opened Wrappers
  import opened Text
  import PathUtils

  /** The log file a message of the given type goes to. */
  function LogPath(dir: string, logType: string): string {
    PathUtils.PathJoin(dir, logType + ".log")
  }

  /** The one line a call writes; the type is upper-cased. */
  function LogLine(timestamp: string, logType: string, message: string): string {
    timestamp + " - " + ToUpper(logType) + ": " + message + "\n"
  }

  /** The position of the first `c` in `s`. */
  function IndexOf(s: string, c: char): (r: Option<nat>)
    ensures r.Some? ==> r.value < |s| && s[r.value] == c && c !in s[..r.value]
    ensures r.None? ==> c !in s
  {
    if s == [] then None
    else if s[0] == c then Some(0)
    else match IndexOf(s[1..], c)
      case None => None
      case Some(i) =>
        assert s[..i + 1] == [s[0]] + s[1..][..i];
        Some(i + 1)
  }

  /** Reads a log line back into its timestamp, upper-cased type and message. */
  function ParseLogLine(line: string): Option<(string, string, string)> {
    if |line| == 0 || line[|line| - 1] != '\n' then None
    else
      var body := line[..|line| - 1];
      match IndexOf(body, ' ')
      case None => None
      case Some(i) =>
        if !StartsWith(body[i..], " - ") then None
        else match ParseTypeAndMessage(body[i + 3..])
          case None => None
          case Some((t, m)) => Some((body[..i], t, m))
  }

  /** Splits `<TYPE>: <message>` at its first colon. */
  function ParseTypeAndMessage(s: string): Option<(string, string)> {
    match IndexOf(s, ':')
    case None => None
    case Some(j) =>
      if !StartsWith(s[j..], ": ") then None
      else Some((s[..j], s[j + 2..]))
  }

  lemma IndexOfAfter(pre: string, c: char, post: string)
    requires c !in pre
    ensures IndexOf(pre + [c] + post, c) == Some(|pre|)
  {
    var s := pre + [c] + post;
    assert s[|pre|] == c;
    assert s[..|pre|] == pre;
    assert forall k :: 0 <= k < |pre| ==> s[k] == pre[k];
  }

  lemma ParseTypeAndMessageOf(upper: string, message: string)
    requires ':' !in upper
    ensures ParseTypeAndMessage(upper + ": " + message) == Some((upper, message))
  {
    var s := upper + ": " + message;
    assert s == upper + [':'] + (" " + message);
    IndexOfAfter(upper, ':', " " + message);
    assert s[|upper|..] == ": " + message;
    assert s[..|upper|] == upper;
    assert s[|upper| + 2..] == message;
  }

  /** A log line gives back its timestamp, upper-cased type and message, for timestamps without
      spaces (ISO 8601 has none) and types without colons. */
  lemma ParseLogLineRoundTrip(timestamp: string, logType: string, message: string)
    requires ' ' !in timestamp && ':' !in logType
    ensures ParseLogLine(LogLine(timestamp, logType, message)) == Some((timestamp, ToUpper(logType), message))
  {
    var upper := ToUpper(logType);
    UpperKeepsColonsOut(logType);
    var tail := upper + ": " + message;
    var line := LogLine(timestamp, logType, message);
    assert line == (timestamp + " - " + tail) + "\n";
    assert line[..|line| - 1] == timestamp + " - " + tail;
    SplitAtTimestamp(timestamp, tail);
    ParseTypeAndMessageOf(upper, message);
  }

  lemma UpperKeepsColonsOut(s: string)
    requires ':' !in s
    ensures ':' !in ToUpper(s)
  {
    var upper := ToUpper(s);
    forall k | 0 <= k < |upper| ensures upper[k] != ':' {
      assert upper[k] == UpperChar(s[k]);
    }
  }

  /** A line body splits at the space that ends a timestamp without spaces. */
  lemma SplitAtTimestamp(timestamp: string, tail: string)
    requires ' ' !in timestamp
    ensures var body := timestamp + " - " + tail;
      IndexOf(body, ' ') == Some(|timestamp|) && body[..|timestamp|] == timestamp
      && StartsWith(body[|timestamp|..], " - ") && body[|timestamp| + 3..] == tail
  {
    var body := timestamp + " - " + tail;
    assert body == timestamp + [' '] + ("- " + tail);
    IndexOfAfter(timestamp, ' ', "- " + tail);
    assert body[|timestamp|..] == " - " + tail;
    assert body[|timestamp| + 3..] == tail;
    assert body[..|timestamp|] == timestamp;
  }

  /** Which step of a write fails, if any. */
  datatype WriteFailure = NoFailure | MkdirFails | AppendFails

  /** Which unlink of a log reset throws, if any; the throw skips the unlinks after it. */
  datatype UnlinkFailure = UnlinkSucceeds | ErrorLogUnlinkFails | InfoLogUnlinkFails

  /** The files other than one stored at `path` itself and those in the tree under it, with
      their contents. */
  function OutsideTree(files: map<string, string>, path: string): (r: map<string, string>)
    ensures forall p :: p in r <==> p in files && p != path && !StartsWith(p, path + "/")
    ensures forall p :: p in r ==> r[p] == files[p]
  {
    map p | p in files && p != path && !StartsWith(p, path + "/") :: files[p]
  }

  /** The directories `mkdirSync(path, { recursive: true })` makes sure of: `path` and every
      directory above it, that is each prefix of `path` that ends just before a '/'. */
  function DirChain(path: string): (r: set<string>)
    ensures path != "" ==> path in r
    ensures forall k :: 0 < k < |path| && path[k] == '/' ==> path[..k] in r
    ensures forall d :: d in r ==> d != "" && d <= path && (|d| == |path| || path[|d|] == '/')
  {
    assert path[..|path|] == path;
    set k | 0 < k <= |path| && (k == |path| || path[k] == '/') :: path[..k]
  }

  /** The directories once `ensureDir(path)` has run: unchanged when something exists at `path`,
      else with `path` and the directories above it. */
  function EnsuredDirs(files: map<string, string>, dirs: set<string>, path: string): (r: set<string>)
    ensures dirs <= r
    ensures forall d :: d in r ==> d in dirs || d in DirChain(path)
    ensures path != "" && path !in files ==> path in r
    ensures path in files || path in dirs ==> r == dirs
  {
    if path in files || path in dirs then dirs else dirs + DirChain(path)
  }

  /** The files once both logs of `dir` are written empty; nothing else changes. */
  function LogsReset(files: map<string, string>, dir: string): (r: map<string, string>)
    ensures PathUtils.PathJoin(dir, "error.log") in r && r[PathUtils.PathJoin(dir, "error.log")] == ""
    ensures PathUtils.PathJoin(dir, "info.log") in r && r[PathUtils.PathJoin(dir, "info.log")] == ""
    ensures r.Keys == files.Keys + {PathUtils.PathJoin(dir, "error.log"), PathUtils.PathJoin(dir, "info.log")}
    ensures forall p :: p in files && p != PathUtils.PathJoin(dir, "error.log") && p != PathUtils.PathJoin(dir, "info.log")
                        ==> r[p] == files[p]
  {
    files[PathUtils.PathJoin(dir, "error.log") := ""][PathUtils.PathJoin(dir, "info.log") := ""]
  }

  /** Writing two files empty gives the same result whether or not some of their old copies were
      removed first. */
  lemma ResetAfterRemoval(f0: map<string, string>, f1: map<string, string>, a: string, b: string)
    requires forall p :: p in f1 ==> p in f0 && f1[p] == f0[p]
    requires forall p :: p in f0 && p !in f1 ==> p == a || p == b
    ensures f1[a := ""][b := ""] == f0[a := ""][b := ""]
  {
    var g0 := f0[a := ""][b := ""];
    var g1 := f1[a := ""][b := ""];
    assert g1.Keys == g0.Keys;
    forall p | p in g0
      ensures g1[p] == g0[p]
    {
    }
  }

  /** The directories other than `path` and those under it. */
  function DirsOutside(dirs: set<string>, path: string): (r: set<string>)
    ensures forall d :: d in r <==> d in dirs && d != path && !StartsWith(d, path + "/")
  {
    set d | d in dirs && d != path && !StartsWith(d, path + "/")
  }

  /** Files by path with their contents, and the directories that exist. */
  class FileStore {
    var files: map<string, string>
    var dirs: set<string>

    constructor (files0: map<string, string>, dirs0: set<string>)
      ensures files == files0 && dirs == dirs0
    {
      files := files0;
      dirs := dirs0;
    }

    /** `fs.existsSync`. */
    predicate Exists(path: string)
      reads this
    {
      path in files || path in dirs
    }

    /** `logToFile`: creates the directory, then appends exactly one line to `<dir>/<type>.log`.
        A failure of either step is swallowed: the call always returns. */
    method LogToFile(dir: string, message: string, timestamp: string, failure: WriteFailure,
                     logType: string := "info")
      modifies this
      ensures failure == MkdirFails ==> files == old(files) && dirs == old(dirs)
      ensures failure != MkdirFails ==> dirs == old(dirs) + DirChain(dir)
      ensures failure == AppendFails ==> files == old(files)
      ensures failure == NoFailure ==>
        var p := LogPath(dir, logType);
        files == old(files)[p := (if p in old(files) then old(files)[p] else "") + LogLine(timestamp, logType, message)]
    {
      var logPath := LogPath(dir, logType);
      var line := LogLine(timestamp, logType, message);
      if failure == MkdirFails {
        return;
      }
      dirs := dirs + DirChain(dir);
      if failure == AppendFails {
        return;
      }
      var before := if logPath in files then files[logPath] else "";
      files := files[logPath := before + line];
    }

    /** The log reset of the build scripts: both logs of `dir` are unlinked when they exist (a
        failing unlink is reported and skips the rest), then both are written empty. */
    method ResetLogs(dir: string, failure: UnlinkFailure)
      modifies this
      ensures files == LogsReset(old(files), dir)
      ensures dirs == old(dirs)
    {
      var errorLog := PathUtils.PathJoin(dir, "error.log");
      var infoLog := PathUtils.PathJoin(dir, "info.log");
      if failure != ErrorLogUnlinkFails {
        if errorLog in files {
          files := map p | p in files && p != errorLog :: files[p];
        }
        if failure != InfoLogUnlinkFails && infoLog in files {
          files := map p | p in files && p != infoLog :: files[p];
        }
      }
      ResetAfterRemoval(old(files), files, errorLog, infoLog);
      files := files[errorLog := ""];
      files := files[infoLog := ""];
    }

    /** `mkdirSync(path, { recursive: true })`: `path` and the directories above it exist
        afterwards. */
    method MakeDirs(path: string)
      modifies this
      ensures dirs == old(dirs) + DirChain(path) && files == old(files)
    {
      dirs := dirs + DirChain(path);
    }

    /** `ensureDir`: when nothing exists at `path`, `mkdirSync(path, { recursive: true })`. */
    method EnsureDir(path: string)
      modifies this
      ensures dirs == EnsuredDirs(old(files), old(dirs), path)
      ensures files == old(files)
    {
      if !Exists(path) {
        MakeDirs(path);
      }
    }

    /** `rmSync(path, { recursive: true, force: true })`: whatever is at `path`, a file or a
        directory, goes, and so does every directory and file under it. */
    method RemoveTree(path: string)
      modifies this
      ensures dirs == DirsOutside(old(dirs), path)
      ensures files == OutsideTree(old(files), path)
    {
      dirs := DirsOutside(dirs, path);
      files := OutsideTree(files, path);
    }

    /** `copyFileSync(source, dest)`. */
    method CopyFile(source: string, dest: string)
      requires source in files
      modifies this
      ensures files == old(files)[dest := old(files)[source]] && dirs == old(dirs)
    {
      files := files[dest := files[source]];
    }
  }
}
