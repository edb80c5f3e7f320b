/** `with-env`: runs a command through env-cmd with a layered list of env files. The argument
    parser, the env-file layering, the backend short names, the env-cmd argument vector and the
    exit code of the wrapper. The file system is a set of existing paths; printing and
    `process.exit` become the returned outcome. */
module WithEnv {
  import opened Wrappers
  import opened Text
  import Js

  type Env = map<string, string>

  /** The parser's record. */
  datatype ParsedArgs = ParsedArgs(profile: Option<string>, backend: Option<string>,
                                   extraFiles: seq<string>, dryRun: bool, command: seq<string>)

  /** Nothing set, no files, no dry run, no command. */
  const InitialArgs := ParsedArgs(None, None, [], false, [])

  /** `parseArgs` either returns its record, prints the help and exits 0, or dies with a message
      and exits 1. */
  datatype ParseOutcome = Parsed(args: ParsedArgs) | ShowHelp | Die(message: string)

  predicate IsValueFlag(arg: string) {
    arg == "--profile" || arg == "--be" || arg == "--backend" || arg == "--file" || arg == "-f"
  }

  /** The handler of a value flag: `--profile` sets the profile, `--be`/`--backend` overwrite the
      backend, `--file`/`-f` append to the extra files. */
  function SetFlag(acc: ParsedArgs, flag: string, value: string): ParsedArgs
    requires IsValueFlag(flag)
  {
    if flag == "--profile" then acc.(profile := Some(value))
    else if flag == "--be" || flag == "--backend" then acc.(backend := Some(value))
    else acc.(extraFiles := acc.extraFiles + [value])
  }

  /** The parse of `args` from position `i` on, with the record built so far. */
  function ParseFrom(args: seq<string>, i: nat, acc: ParsedArgs): (r: ParseOutcome)
    requires i <= |args|
    ensures r.Die? ==> StartsWith(r.message, "Missing value for -") || StartsWith(r.message, "Unknown argument: ")
    ensures r.Parsed? ==> acc.extraFiles <= r.args.extraFiles
    ensures r.Parsed? ==>
      r.args.command == acc.command || exists j :: i <= j < |args| && args[j] == "--" && r.args.command == args[j + 1..]
    decreases |args| - i
  {
    if i == |args| then Parsed(acc)
    else
      var arg := args[i];
      if arg == "--" then Parsed(acc.(command := args[i + 1..]))
      else if arg == "--help" || arg == "-h" then ShowHelp
      else if arg == "--dry-run" then ParseFrom(args, i + 1, acc.(dryRun := true))
      else if IsValueFlag(arg) then
        if i + 1 == |args| || args[i + 1] == "" then Die("Missing value for " + arg)
        else ParseFrom(args, i + 2, SetFlag(acc, arg, args[i + 1]))
      else Die("Unknown argument: " + arg)
  }

  /** `parseArgs`: a cursor walks the arguments through the handler table; `--` ends the walk. */
  method ParseArgs(argv: seq<string>) returns (outcome: ParseOutcome)
    ensures outcome == ParseFrom(argv, 0, InitialArgs)
  {
    var result := InitialArgs;
    var i := 0;
    while i < |argv|
      invariant i <= |argv|
      invariant ParseFrom(argv, i, result) == ParseFrom(argv, 0, InitialArgs)
      decreases |argv| - i
    {
      var arg := argv[i];
      if arg == "--" {
        result := result.(command := argv[i + 1..]);
        return Parsed(result);
      }
      if arg == "--help" || arg == "-h" {
        return ShowHelp;
      } else if arg == "--dry-run" {
        result := result.(dryRun := true);
        i := i + 1;
      } else if IsValueFlag(arg) {
        if i + 1 == |argv| || argv[i + 1] == "" {
          return Die("Missing value for " + arg);
        }
        result := SetFlag(result, arg, argv[i + 1]);
        i := i + 2;
      } else {
        return Die("Unknown argument: " + arg);
      }
    }
    outcome := Parsed(result);
  }

  // ---------------------------------------------------------------- a printer for the parser

  /** One option as a caller writes it. */
  datatype Flag =
    | DryRunFlag
    | ProfileFlag(value: string)
    | BackendFlag(value: string, long: bool)   // `--backend` when long, `--be` otherwise
    | FileFlag(value: string, short: bool)     // `-f` when short, `--file` otherwise

  function FlagTokens(f: Flag): seq<string> {
    match f
    case DryRunFlag => ["--dry-run"]
    case ProfileFlag(v) => ["--profile", v]
    case BackendFlag(v, long) => [if long then "--backend" else "--be", v]
    case FileFlag(v, short) => [if short then "-f" else "--file", v]
  }

  function Render(flags: seq<Flag>): seq<string> {
    if flags == [] then [] else FlagTokens(flags[0]) + Render(flags[1..])
  }

  /** What one option does to the record. */
  function FlagMeaning(f: Flag, acc: ParsedArgs): ParsedArgs {
    match f
    case DryRunFlag => acc.(dryRun := true)
    case ProfileFlag(v) => acc.(profile := Some(v))
    case BackendFlag(v, _) => acc.(backend := Some(v))
    case FileFlag(v, _) => acc.(extraFiles := acc.extraFiles + [v])
  }

  /** What the options mean, one after the other. */
  function Apply(flags: seq<Flag>, acc: ParsedArgs): ParsedArgs {
    if flags == [] then acc else Apply(flags[1..], FlagMeaning(flags[0], acc))
  }

  /** Every option value is non-empty. */
  predicate WellFormed(flags: seq<Flag>) {
    forall k :: 0 <= k < |flags| ==> !flags[k].DryRunFlag? ==> flags[k].value != ""
  }

  /** One option written out is parsed as what it means. */
  lemma ParseOneFlag(args: seq<string>, i: nat, f: Flag, acc: ParsedArgs)
    requires !f.DryRunFlag? ==> f.value != ""
    requires i + |FlagTokens(f)| <= |args| && args[i..i + |FlagTokens(f)|] == FlagTokens(f)
    ensures ParseFrom(args, i, acc) == ParseFrom(args, i + |FlagTokens(f)|, FlagMeaning(f, acc))
  {
    var t := FlagTokens(f);
    assert args[i] == t[0];
    if |t| == 2 {
      assert args[i + 1] == t[1];
    }
  }

  /** A window of `args` holding `t + rest` holds `t`, then `rest`. */
  lemma SliceOfConcat(args: seq<string>, i: nat, t: seq<string>, rest: seq<string>)
    requires i + |t| + |rest| <= |args| && args[i..i + |t| + |rest|] == t + rest
    ensures args[i..i + |t|] == t && args[i + |t|..i + |t| + |rest|] == rest
  {
    var w := args[i..i + |t| + |rest|];
    forall j | 0 <= j < |t| ensures args[i..i + |t|][j] == t[j] {
      assert args[i + j] == w[j];
    }
    forall j | 0 <= j < |rest| ensures args[i + |t|..i + |t| + |rest|][j] == rest[j] {
      assert args[i + |t| + j] == w[|t| + j];
    }
  }

  lemma WellFormedTail(flags: seq<Flag>)
    requires flags != [] && WellFormed(flags)
    ensures WellFormed(flags[1..]) && (!flags[0].DryRunFlag? ==> flags[0].value != "")
  {
    forall k | 0 <= k < |flags[1..]| ensures !flags[1..][k].DryRunFlag? ==> flags[1..][k].value != "" {
      assert flags[1..][k] == flags[k + 1];
    }
  }

  lemma {:induction false} ParseRenderedFrom(args: seq<string>, i: nat, flags: seq<Flag>, acc: ParsedArgs)
    requires WellFormed(flags)
    requires i + |Render(flags)| <= |args| && args[i..i + |Render(flags)|] == Render(flags)
    ensures ParseFrom(args, i, acc) == ParseFrom(args, i + |Render(flags)|, Apply(flags, acc))
    decreases |flags|
  {
    if flags != [] {
      var t := FlagTokens(flags[0]);
      var rest := Render(flags[1..]);
      assert Render(flags) == t + rest;
      SliceOfConcat(args, i, t, rest);
      WellFormedTail(flags);
      var next := FlagMeaning(flags[0], acc);
      var j := i + |t|;
      ParseOneFlag(args, i, flags[0], acc);
      ParseRenderedFrom(args, j, flags[1..], next);
      assert j + |rest| == i + |Render(flags)|;
      assert Apply(flags[1..], next) == Apply(flags, acc);
    }
  }

  /** Round trip: options written out, then `--` and a command, parse back to what the options
      mean, with the command taken verbatim. */
  lemma ParseRoundTrip(flags: seq<Flag>, command: seq<string>)
    requires WellFormed(flags)
    ensures ParseFrom(Render(flags) + ["--"] + command, 0, InitialArgs)
      == Parsed(Apply(flags, InitialArgs).(command := command))
  {
    var args := Render(flags) + ["--"] + command;
    assert args[0..|Render(flags)|] == Render(flags);
    ParseRenderedFrom(args, 0, flags, InitialArgs);
    assert args[|Render(flags)|] == "--";
    assert args[|Render(flags)| + 1..] == command;
  }

  /** Without `--` the command stays empty. */
  lemma ParseWithoutCommand(flags: seq<Flag>)
    requires WellFormed(flags)
    ensures ParseFrom(Render(flags), 0, InitialArgs) == Parsed(Apply(flags, InitialArgs))
  {
    var args := Render(flags);
    assert args[0..|args|] == args;
    ParseRenderedFrom(args, 0, flags, InitialArgs);
  }

  /** After well-formed options, a token that is neither a known flag nor `--` is fatal. */
  lemma UnknownArgumentIsFatal(flags: seq<Flag>, token: string, rest: seq<string>)
    requires WellFormed(flags)
    requires token != "--" && token != "--help" && token != "-h" && token != "--dry-run" && !IsValueFlag(token)
    ensures ParseFrom(Render(flags) + [token] + rest, 0, InitialArgs) == Die("Unknown argument: " + token)
  {
    var args := Render(flags) + [token] + rest;
    assert args[0..|Render(flags)|] == Render(flags);
    ParseRenderedFrom(args, 0, flags, InitialArgs);
    assert args[|Render(flags)|] == token;
  }

  /** After well-formed options, a value flag at the end or followed by an empty value is fatal. */
  lemma MissingValueIsFatal(flags: seq<Flag>, flag: string, tail: seq<string>)
    requires WellFormed(flags) && IsValueFlag(flag)
    requires tail == [] || tail == [""]
    ensures ParseFrom(Render(flags) + [flag] + tail, 0, InitialArgs) == Die("Missing value for " + flag)
  {
    var args := Render(flags) + [flag] + tail;
    var n := |Render(flags)|;
    assert args[0..n] == Render(flags);
    ParseRenderedFrom(args, 0, flags, InitialArgs);
    assert args[n] == flag;
    assert n + 1 == |args| || args[n + 1] == "";
    assert ParseFrom(args, n, Apply(flags, InitialArgs)) == Die("Missing value for " + flag);
  }

  function BackendValues(flags: seq<Flag>): seq<string> {
    if flags == [] then []
    else (if flags[0].BackendFlag? then [flags[0].value] else []) + BackendValues(flags[1..])
  }

  function FileValues(flags: seq<Flag>): seq<string> {
    if flags == [] then []
    else (if flags[0].FileFlag? then [flags[0].value] else []) + FileValues(flags[1..])
  }

  /** The last `--be`/`--backend` wins, and the `--file`/`-f` values are appended in order. */
  lemma {:induction false} BackendLastWinsFilesInOrder(flags: seq<Flag>, acc: ParsedArgs)
    ensures var bs := BackendValues(flags);
      Apply(flags, acc).backend == (if bs == [] then acc.backend else Some(bs[|bs| - 1]))
    ensures Apply(flags, acc).extraFiles == acc.extraFiles + FileValues(flags)
    decreases |flags|
  {
    if flags != [] {
      var next := FlagMeaning(flags[0], acc);
      BackendLastWinsFilesInOrder(flags[1..], next);
      var bs := BackendValues(flags);
      var rest := BackendValues(flags[1..]);
      if rest != [] {
        assert bs[|bs| - 1] == rest[|rest| - 1];
      }
      assert acc.extraFiles + FileValues(flags) == next.extraFiles + FileValues(flags[1..]);
    }
  }

  // ---------------------------------------------------------------- the handler table as written

  /** One turn of the loop of `parseArgs` as written: the table is a plain object, so a name it
      inherits from `Object.prototype` finds a member too. Called without a receiver,
      `constructor`, `toString` and `isPrototypeOf` return normally and do not move the cursor;
      the other inherited functions throw a TypeError, and so does calling `__proto__`, which is
      not a function. */
  datatype StepAsWritten = Continue(i: nat, acc: ParsedArgs) | Stop(outcome: ParseOutcome) | Throws

  predicate InheritedHarmless(arg: string) {
    arg == "constructor" || arg == "toString" || arg == "isPrototypeOf"
  }

  function ParseStepAsWritten(args: seq<string>, i: nat, acc: ParsedArgs): StepAsWritten
    requires i < |args|
  {
    var arg := args[i];
    if arg == "--" then Stop(Parsed(acc.(command := args[i + 1..])))
    else if arg == "--help" || arg == "-h" then Stop(ShowHelp)
    else if arg == "--dry-run" then Continue(i + 1, acc.(dryRun := true))
    else if IsValueFlag(arg) then
      if i + 1 == |args| || args[i + 1] == "" then Stop(Die("Missing value for " + arg))
      else Continue(i + 2, SetFlag(acc, arg, args[i + 1]))
    else if InheritedHarmless(arg) then Continue(i, acc)
    else if Js.InheritedName(arg) then Throws
    else Stop(Die("Unknown argument: " + arg))
  }

  /** With the table as written, `with-env constructor` never leaves the loop: the step maps the
      state to itself; `with-env valueOf` ends with an uncaught TypeError. Looking up own
      properties only, both arguments are reported as unknown. */
  lemma InheritedHandlerLoops()
    ensures ParseStepAsWritten(["constructor"], 0, InitialArgs) == Continue(0, InitialArgs)
    ensures ParseFrom(["constructor"], 0, InitialArgs) == Die("Unknown argument: constructor")
    ensures ParseStepAsWritten(["valueOf"], 0, InitialArgs) == Throws
    ensures ParseFrom(["valueOf"], 0, InitialArgs) == Die("Unknown argument: valueOf")
  {
  }

  // ---------------------------------------------------------------- the two tables

  /** `PROFILE_FILES`, its own keys. */
  function BaseFiles(profile: string): (r: Option<seq<string>>)
    ensures r.Some? <==> profile == "dev" || profile == "prod"
    ensures r.Some? ==> r.value == ["envs/.env." + profile]
  {
    if profile == "dev" then assert "envs/.env." + profile == "envs/.env.dev"; Some(["envs/.env.dev"])
    else if profile == "prod" then assert "envs/.env." + profile == "envs/.env.prod"; Some(["envs/.env.prod"])
    else None
  }

  /** `BACKEND_NAMES`, its own keys. */
  function BackendFullName(short: string): (r: Option<string>)
    ensures r.Some? <==> short in {"nest", "express", "spring"}
    ensures r.Some? ==> r.value == short + "-backend"
  {
    if short == "nest" then Some("nest-backend")
    else if short == "express" then Some("express-backend")
    else if short == "spring" then Some("spring-backend")
    else None
  }

  /** How `PROFILE_FILES[...]` and `BACKEND_NAMES[...]` find an entry. As written, indexing a plain
      object also finds what it inherits from `Object.prototype`; the corrected lookup takes the
      table's own keys only. */
  datatype Lookup = AsWritten | OwnKeysOnly

  /** What indexing a table finds: one of its own entries, an inherited member, or nothing. */
  datatype Found<T> = Own(value: T) | Inherited(name: string) | NotFound

  /** `PROFILE_FILES[profile]`. */
  function ProfileEntry(lookup: Lookup, profile: string): (r: Found<seq<string>>)
    ensures r.Own? <==> BaseFiles(profile).Some?
    ensures r.Own? ==> r.value == BaseFiles(profile).value
    ensures r.Inherited? <==> lookup == AsWritten && Js.InheritedName(profile)
    ensures r.Inherited? ==> r.name == profile
  {
    if BaseFiles(profile).Some? then Own(BaseFiles(profile).value)
    else if lookup == AsWritten && Js.InheritedName(profile) then Inherited(profile)
    else NotFound
  }

  /** `BACKEND_NAMES[short]`. */
  function BackendEntry(lookup: Lookup, short: string): (r: Found<string>)
    ensures r.Own? <==> BackendFullName(short).Some?
    ensures r.Own? ==> r.value == BackendFullName(short).value
    ensures r.Inherited? <==> lookup == AsWritten && Js.InheritedName(short)
    ensures r.Inherited? ==> r.name == short
  {
    if BackendFullName(short).Some? then Own(BackendFullName(short).value)
    else if lookup == AsWritten && Js.InheritedName(short) then Inherited(short)
    else NotFound
  }

  // ---------------------------------------------------------------- env files

  /** `resolveRepoPath`: empty stays empty, absolute stays, relative is taken from `cwd`. */
  function ResolveRepoPath(cwd: string, p: string): (r: string)
    ensures p == "" ==> r == ""
    ensures StartsWith(p, "/") ==> r == p
    ensures p != "" && !StartsWith(p, "/") ==> r == cwd + "/" + p
  {
    if p == "" then p
    else if StartsWith(p, "/") then p
    else cwd + "/" + p
  }

  /** The profile's own local override. */
  function ProfileLocal(profile: string): string {
    "envs/.env." + profile + ".local"
  }

  /** The local override shared by every profile. */
  const SharedLocal := "envs/.env.local"

  /** No profile's local override is the shared one: it is one character longer at least. */
  lemma LocalOverridesDiffer(profile: string)
    ensures ProfileLocal(profile) != SharedLocal
  {
    assert |ProfileLocal(profile)| == 16 + |profile|;
  }

  /** The env files in layering order: the profile's base files; then its local override when
      that file exists; then the shared local override when that file exists; then the extra
      files in argument order. */
  function EnvFileList(base: seq<string>, profile: string, extraFiles: seq<string>, cwd: string,
                       existing: set<string>): (files: seq<string>)
    ensures var own := ResolveRepoPath(cwd, ProfileLocal(profile)) in existing;
      var shared := ResolveRepoPath(cwd, SharedLocal) in existing;
      |files| == |base| + (if own then 1 else 0) + (if shared then 1 else 0) + |extraFiles|
      && files[..|base|] == base
      && files[|files| - |extraFiles|..] == extraFiles
      && (own <==> |files| > |base| + |extraFiles| && files[|base|] == ProfileLocal(profile))
      && (shared <==> |files| > |base| + |extraFiles| && files[|files| - |extraFiles| - 1] == SharedLocal)
  {
    LocalOverridesDiffer(profile);
    base
      + (if ResolveRepoPath(cwd, ProfileLocal(profile)) in existing then [ProfileLocal(profile)] else [])
      + (if ResolveRepoPath(cwd, SharedLocal) in existing then [SharedLocal] else [])
      + extraFiles
  }

  /** `envFiles.map(resolveRepoPath).filter(Boolean)`. */
  function ResolveAll(cwd: string, files: seq<string>): (r: seq<string>)
    ensures |r| <= |files|
    ensures forall k :: 0 <= k < |r| ==> r[k] != ""
    ensures (forall k :: 0 <= k < |files| ==> files[k] != "") ==>
      |r| == |files| && forall k :: 0 <= k < |files| ==> r[k] == ResolveRepoPath(cwd, files[k])
  {
    if files == [] then []
    else
      var p := ResolveRepoPath(cwd, files[0]);
      (if p != "" then [p] else []) + ResolveAll(cwd, files[1..])
  }

  /** `-f <file>` for each file. */
  function FilePairs(files: seq<string>): (args: seq<string>)
    ensures |args| == 2 * |files|
    ensures forall k :: 0 <= k < |files| ==> args[2 * k] == "-f" && args[2 * k + 1] == files[k]
  {
    if files == [] then []
    else
      var init := files[..|files| - 1];
      var r := FilePairs(init) + ["-f", files[|files| - 1]];
      assert forall k :: 0 <= k < |files| - 1 ==> files[k] == init[k];
      r
  }

  /** The env-cmd arguments: `-f <file>` for each file, then `--`, then the command. */
  function EnvCmdArgList(files: seq<string>, command: seq<string>): (args: seq<string>)
    ensures |args| == 2 * |files| + 1 + |command|
    ensures forall k :: 0 <= k < |files| ==> args[2 * k] == "-f" && args[2 * k + 1] == files[k]
    ensures args[2 * |files|] == "--" && args[2 * |files| + 1..] == command
  {
    FilePairs(files) + ["--"] + command
  }

  /** The env-cmd arguments, pushed pair by pair. */
  method BuildEnvCmdArgs(files: seq<string>, command: seq<string>) returns (args: seq<string>)
    ensures args == EnvCmdArgList(files, command)
  {
    args := [];
    for i := 0 to |files|
      invariant args == FilePairs(files[..i])
    {
      assert files[..i + 1][..i] == files[..i];
      args := args + ["-f", files[i]];
    }
    assert files[..|files|] == files;
    args := args + ["--"] + command;
  }

  /** The `bin` field of env-cmd's `package.json`. */
  datatype BinField = BinPath(path: string) | BinTable(entries: seq<(string, string)>) | NoBin

  function TableLookup(entries: seq<(string, string)>, key: string): Option<string> {
    if entries == [] then None
    else if entries[0].0 == key then Some(entries[0].1)
    else TableLookup(entries[1..], key)
  }

  /** The string form is the path; the table form is its `env-cmd` entry, else its first value. */
  function RelativeBinPath(bin: BinField): (r: Option<string>)
    ensures bin.BinPath? ==> r == Some(bin.path)
    ensures bin.NoBin? ==> r == None
    ensures bin.BinTable? && TableLookup(bin.entries, "env-cmd").Some? ==> r == TableLookup(bin.entries, "env-cmd")
    ensures bin.BinTable? && TableLookup(bin.entries, "env-cmd").None? ==>
      r == (if bin.entries == [] then None else Some(bin.entries[0].1))
  {
    match bin
    case BinPath(p) => Some(p)
    case NoBin => None
    case BinTable(entries) =>
      match TableLookup(entries, "env-cmd")
      case Some(p) => Some(p)
      case None => if entries == [] then None else Some(entries[0].1)
  }

  /** The exit code of the wrapper once env-cmd has exited: 1 after a signal, else the child's
      code, else 1. */
  function ExitCode(code: Option<int>, signal: Option<string>): (r: int)
    ensures signal.Some? ==> r == 1
    ensures signal.None? && code.Some? ==> r == code.value
    ensures signal.None? && code.None? ==> r == 1
  {
    if signal.Some? then 1 else code.GetOr(1)
  }

  /** What the script ends with. */
  datatype Outcome =
    | Help                                                     // help printed, exit 0
    | Fatal(message: string)                                   // `die`: message printed, exit 1
    | Crash                                                    // an uncaught TypeError, exit 1
    | DryRun(envFiles: seq<string>, command: seq<string>)      // the plan printed, exit 0
    | Launch(program: string, args: seq<string>, env: Env)     // env-cmd started under node

  /** Where env-cmd's `package.json` was found, with its `bin` field; None when it cannot be
      resolved from the working directory. */
  datatype EnvCmdPackage = EnvCmdPackage(dir: string, bin: BinField)

  /** The env files of a parsed command line, resolved from the working directory. */
  function PlannedFiles(profile: string, base: seq<string>, p: ParsedArgs, cwd: string, existing: set<string>): seq<string> {
    ResolveAll(cwd, EnvFileList(base, profile, p.extraFiles, cwd, existing))
  }

  /** `envFiles`: the base files, the local files that exist, then the extra files, pushed one by one. */
  method LayerEnvFiles(base: seq<string>, profile: string, extraFiles: seq<string>, cwd: string,
                       existing: set<string>) returns (envFiles: seq<string>)
    ensures envFiles == EnvFileList(base, profile, extraFiles, cwd, existing)
  {
    envFiles := base;
    var profileLocal := ProfileLocal(profile);
    if ResolveRepoPath(cwd, profileLocal) in existing {
      envFiles := envFiles + [profileLocal];
    }
    if ResolveRepoPath(cwd, SharedLocal) in existing {
      envFiles := envFiles + [SharedLocal];
    }
    for k := 0 to |extraFiles|
      invariant envFiles == EnvFileList(base, profile, extraFiles[..k], cwd, existing)
    {
      assert extraFiles[..k + 1] == extraFiles[..k] + [extraFiles[k]];
      envFiles := envFiles + [extraFiles[k]];
    }
    assert extraFiles[..|extraFiles|] == extraFiles;
  }

  /** The first file that does not exist, if any. */
  function FirstAbsent(files: seq<string>, existing: set<string>): (r: Option<string>)
    ensures r.None? <==> forall k :: 0 <= k < |files| ==> files[k] in existing
    ensures r.Some? ==> exists k :: 0 <= k < |files| && files[k] == r.value && r.value !in existing
                                    && forall j :: 0 <= j < k ==> files[j] in existing
  {
    if files == [] then None
    else if files[0] !in existing then Some(files[0])
    else
      var r := FirstAbsent(files[1..], existing);
      assert forall k :: 1 <= k < |files| ==> files[k] == files[1..][k - 1];
      r
  }

  /** The check loop over the resolved files. */
  method FirstMissing(files: seq<string>, existing: set<string>) returns (missing: Option<string>)
    ensures missing == FirstAbsent(files, existing)
  {
    for k := 0 to |files|
      invariant FirstAbsent(files, existing) == FirstAbsent(files[k..], existing)
    {
      assert files[k..][1..] == files[k + 1..];
      if files[k] !in existing {
        return Some(files[k]);
      }
    }
    return None;
  }

  const MissingEnvCmd := "Missing dependency \"env-cmd\". Run: pnpm install"
  const NoEnvCmdBin := "Could not locate env-cmd binary from env-cmd/package.json"

  /** `resolveEnvCmdBin`: the absolute path of env-cmd's binary, or the reason it cannot be run. */
  function EnvCmdBin(envCmd: Option<EnvCmdPackage>, existing: set<string>): (r: Result<string, string>)
    ensures r.Ok? ==> envCmd.Some? && r.value in existing
    ensures envCmd.None? ==> r == Err(MissingEnvCmd)
    ensures envCmd.Some? && RelativeBinPath(envCmd.value.bin).GetOr("") == "" ==> r == Err(NoEnvCmdBin)
    ensures envCmd.Some? && RelativeBinPath(envCmd.value.bin).GetOr("") != "" ==>
      var bin := ResolveRepoPath(envCmd.value.dir, RelativeBinPath(envCmd.value.bin).value);
      (r.Ok? <==> bin in existing)
      && (r.Ok? ==> r.value == bin)
      && (r.Err? ==> r.error == "env-cmd binary not found at " + bin)
  {
    if envCmd.None? then Err(MissingEnvCmd)
    else
      var rel := RelativeBinPath(envCmd.value.bin);
      if rel.None? || rel.value == "" then Err(NoEnvCmdBin)
      else
        var bin := ResolveRepoPath(envCmd.value.dir, rel.value);
        if bin !in existing then Err("env-cmd binary not found at " + bin) else Ok(bin)
  }

  // ---------------------------------------------------------------- main

  const ProfileRequired := "Required: --profile <name>"
  const MissingCommand := "Missing command. Use: -- <command> [args...]"

  function UnknownProfile(profile: string): string {
    "Unknown profile: " + profile + ". Run: pnpm -s run with-env --help"
  }

  function UnknownBackend(backend: string): string {
    "Unknown backend: " + backend + " (expected: nest, express, spring)"
  }

  function EnvFileNotFound(path: string): string {
    "Env file not found: " + path
  }

  /** A backend override was given (an empty one counts as none). */
  predicate HasBackend(p: ParsedArgs) {
    p.backend.Some? && p.backend.value != ""
  }

  /** The environment env-cmd is spawned with: BACKEND is set from the override's table entry,
      or the override is unknown. */
  function BackendEnv(lookup: Lookup, p: ParsedArgs, processEnv: Env): Result<Env, string> {
    if !HasBackend(p) then Ok(processEnv)
    else match BackendEntry(lookup, p.backend.value)
      case Own(full) => Ok(processEnv["BACKEND" := full])
      case Inherited(name) => Ok(processEnv["BACKEND" := Js.InheritedText(name)])
      case NotFound => Err(UnknownBackend(p.backend.value))
  }

  /** The script once the arguments are parsed, with the tables looked up as `lookup` says. The
      checks run in the script's order: profile given, profile known, backend known, every env
      file present, a command given, env-cmd found; then the plan is printed or env-cmd is
      spawned under node. */
  function RunSpec(lookup: Lookup, p: ParsedArgs, cwd: string, existing: set<string>, processEnv: Env,
                   envCmd: Option<EnvCmdPackage>, nodePath: string): Outcome
  {
    if p.profile.None? || p.profile.value == "" then Fatal(ProfileRequired)
    else
      var profile := p.profile.value;
      match ProfileEntry(lookup, profile)
      case NotFound => Fatal(UnknownProfile(profile))
      case Inherited(_) => Crash
      case Own(base) =>
        match BackendEnv(lookup, p, processEnv)
        case Err(m) => Fatal(m)
        case Ok(env) =>
          var files := PlannedFiles(profile, base, p, cwd, existing);
          match FirstAbsent(files, existing)
          case Some(missing) => Fatal(EnvFileNotFound(missing))
          case None =>
            if p.command == [] then Fatal(MissingCommand)
            else match EnvCmdBin(envCmd, existing)
              case Err(m) => Fatal(m)
              case Ok(bin) =>
                if p.dryRun then DryRun(files, p.command)
                else Launch(nodePath, [bin] + EnvCmdArgList(files, p.command), env)
  }

  /** The env files a known profile plans. */
  function Planned(p: ParsedArgs, cwd: string, existing: set<string>): seq<string>
    requires p.profile.Some? && BaseFiles(p.profile.value).Some?
  {
    PlannedFiles(p.profile.value, BaseFiles(p.profile.value).value, p, cwd, existing)
  }

  /** Everything the script checks holds: a known profile, a known backend if one was given,
      every planned env file present, a command, and env-cmd found. */
  predicate Runnable(p: ParsedArgs, cwd: string, existing: set<string>, envCmd: Option<EnvCmdPackage>) {
    p.profile.Some? && BaseFiles(p.profile.value).Some?
    && (HasBackend(p) ==> BackendFullName(p.backend.value).Some?)
    && FirstAbsent(Planned(p, cwd, existing), existing).None?
    && p.command != []
    && EnvCmdBin(envCmd, existing).Ok?
  }

  /** Each failed check ends the script with its own message, in the script's order. */
  lemma {:induction false} RunSpecFailures(p: ParsedArgs, cwd: string, existing: set<string>, processEnv: Env,
                                           envCmd: Option<EnvCmdPackage>, nodePath: string)
    ensures var o := RunSpec(OwnKeysOnly, p, cwd, existing, processEnv, envCmd, nodePath);
      (p.profile.None? || p.profile.value == "" ==> o == Fatal(ProfileRequired))
      && (p.profile.Some? && p.profile.value != "" && BaseFiles(p.profile.value).None? ==>
            o == Fatal(UnknownProfile(p.profile.value)))
      && (p.profile.Some? && BaseFiles(p.profile.value).Some? && HasBackend(p)
          && BackendFullName(p.backend.value).None? ==>
            o == Fatal(UnknownBackend(p.backend.value)))
    ensures var o := RunSpec(OwnKeysOnly, p, cwd, existing, processEnv, envCmd, nodePath);
      p.profile.Some? && BaseFiles(p.profile.value).Some?
      && (HasBackend(p) ==> BackendFullName(p.backend.value).Some?) ==>
        var missing := FirstAbsent(Planned(p, cwd, existing), existing);
        (missing.Some? ==> o == Fatal(EnvFileNotFound(missing.value)))
        && (missing.None? && p.command == [] ==> o == Fatal(MissingCommand))
        && (missing.None? && p.command != [] && EnvCmdBin(envCmd, existing).Err? ==>
              o == Fatal(EnvCmdBin(envCmd, existing).error))
  {
  }

  /** When every check holds, a dry run prints the resolved env files and the command, and
      otherwise env-cmd is spawned under node with "-f" per env file, `--` and the command, and
      with BACKEND set to the override's full name. */
  lemma RunSpecRuns(p: ParsedArgs, cwd: string, existing: set<string>, processEnv: Env,
                    envCmd: Option<EnvCmdPackage>, nodePath: string)
    requires Runnable(p, cwd, existing, envCmd)
    ensures var o := RunSpec(OwnKeysOnly, p, cwd, existing, processEnv, envCmd, nodePath);
      (o.DryRun? <==> p.dryRun) && (o.Launch? <==> !p.dryRun)
      && (o.DryRun? ==> o.envFiles == Planned(p, cwd, existing) && o.command == p.command)
      && (o.Launch? ==>
            o.program == nodePath
            && o.args == [EnvCmdBin(envCmd, existing).value] + EnvCmdArgList(Planned(p, cwd, existing), p.command)
            && o.env == (if HasBackend(p) then processEnv["BACKEND" := BackendFullName(p.backend.value).value]
                         else processEnv))
  {
  }

  /** Conversely, the script prints a plan or spawns env-cmd only when every check holds, and
      with the own keys only it never crashes. */
  lemma RunSpecRunsOnlyWhenRunnable(p: ParsedArgs, cwd: string, existing: set<string>, processEnv: Env,
                                    envCmd: Option<EnvCmdPackage>, nodePath: string)
    ensures var o := RunSpec(OwnKeysOnly, p, cwd, existing, processEnv, envCmd, nodePath);
      (o.DryRun? || o.Launch? ==> Runnable(p, cwd, existing, envCmd)) && o != Crash
  {
  }

  /** As written, a backend override naming an inherited member is accepted: the script goes on
      as if BACKEND had been set to that member's text, "function Object() { [native code] }"
      for `--be constructor`. */
  lemma InheritedBackendIsAccepted(p: ParsedArgs, cwd: string, existing: set<string>, processEnv: Env,
                                   envCmd: Option<EnvCmdPackage>, nodePath: string)
    requires p.profile.Some? && BaseFiles(p.profile.value).Some?
    requires HasBackend(p) && Js.InheritedName(p.backend.value)
    ensures RunSpec(AsWritten, p, cwd, existing, processEnv, envCmd, nodePath)
      == RunSpec(OwnKeysOnly, p.(backend := None), cwd, existing,
                 processEnv["BACKEND" := Js.InheritedText(p.backend.value)], envCmd, nodePath)
  {
    var q := p.(backend := None);
    var env := processEnv["BACKEND" := Js.InheritedText(p.backend.value)];
    var profile := p.profile.value;
    assert BackendEnv(AsWritten, p, processEnv) == Ok(env);
    assert BackendEnv(OwnKeysOnly, q, env) == Ok(env);
    assert ProfileEntry(AsWritten, profile) == ProfileEntry(OwnKeysOnly, profile) == Own(BaseFiles(profile).value);
    assert Planned(q, cwd, existing) == Planned(p, cwd, existing);
  }

  /** With own keys only, the same backend override is an unknown backend. */
  lemma InheritedBackendIsUnknown(p: ParsedArgs, cwd: string, existing: set<string>, processEnv: Env,
                                  envCmd: Option<EnvCmdPackage>, nodePath: string)
    requires p.profile.Some? && BaseFiles(p.profile.value).Some?
    requires HasBackend(p) && Js.InheritedName(p.backend.value)
    ensures RunSpec(OwnKeysOnly, p, cwd, existing, processEnv, envCmd, nodePath)
      == Fatal(UnknownBackend(p.backend.value))
  {
    assert BackendEnv(OwnKeysOnly, p, processEnv) == Err(UnknownBackend(p.backend.value));
  }

  /** As written, a profile naming an inherited member passes the unknown-profile check and the
      spread of the member it finds throws. With own keys only it is an unknown profile. */
  lemma InheritedProfileCrashes(p: ParsedArgs, cwd: string, existing: set<string>, processEnv: Env,
                                envCmd: Option<EnvCmdPackage>, nodePath: string)
    requires p.profile.Some? && Js.InheritedName(p.profile.value)
    ensures RunSpec(AsWritten, p, cwd, existing, processEnv, envCmd, nodePath) == Crash
    ensures RunSpec(OwnKeysOnly, p, cwd, existing, processEnv, envCmd, nodePath)
      == Fatal(UnknownProfile(p.profile.value))
  {
  }

  /** Away from inherited names the two lookups give the same outcome. */
  lemma LookupsAgreeElsewhere(p: ParsedArgs, cwd: string, existing: set<string>, processEnv: Env,
                              envCmd: Option<EnvCmdPackage>, nodePath: string)
    requires p.profile.Some? ==> !Js.InheritedName(p.profile.value)
    requires HasBackend(p) ==> !Js.InheritedName(p.backend.value)
    ensures RunSpec(AsWritten, p, cwd, existing, processEnv, envCmd, nodePath)
      == RunSpec(OwnKeysOnly, p, cwd, existing, processEnv, envCmd, nodePath)
  {
  }

  /** `--profile dev --be constructor -- node x` parses to the record the lemmas above take. */
  lemma ConstructorBackendCommandLine()
    ensures ParseFrom(["--profile", "dev", "--be", "constructor", "--", "node", "x"], 0, InitialArgs)
      == Parsed(ParsedArgs(Some("dev"), Some("constructor"), [], false, ["node", "x"]))
  {
    var flags := [ProfileFlag("dev"), BackendFlag("constructor", false)];
    assert Render(flags) == ["--profile", "dev", "--be", "constructor"];
    ParseRoundTrip(flags, ["node", "x"]);
  }

  /** The script once the arguments are parsed: the tables are looked up by their own keys. */
  method RunParsed(p: ParsedArgs, cwd: string, existing: set<string>, processEnv: Env,
                   envCmd: Option<EnvCmdPackage>, nodePath: string)
    returns (outcome: Outcome)
    ensures outcome == RunSpec(OwnKeysOnly, p, cwd, existing, processEnv, envCmd, nodePath)
  {
    if p.profile.None? || p.profile.value == "" {
      return Fatal(ProfileRequired);
    }
    var profile := p.profile.value;
    var baseFiles := BaseFiles(profile);
    if baseFiles.None? {
      return Fatal(UnknownProfile(profile));
    }
    var env := processEnv;
    if HasBackend(p) {
      var full := BackendFullName(p.backend.value);
      if full.None? {
        return Fatal(UnknownBackend(p.backend.value));
      }
      env := env["BACKEND" := full.value];
    }
    var envFiles := LayerEnvFiles(baseFiles.value, profile, p.extraFiles, cwd, existing);
    var resolved := ResolveAll(cwd, envFiles);
    var missing := FirstMissing(resolved, existing);
    if missing.Some? {
      return Fatal(EnvFileNotFound(missing.value));
    }
    if p.command == [] {
      return Fatal(MissingCommand);
    }
    var bin := EnvCmdBin(envCmd, existing);
    if bin.Err? {
      return Fatal(bin.error);
    }
    var envCmdArgs := BuildEnvCmdArgs(resolved, p.command);
    if p.dryRun {
      return DryRun(resolved, p.command);
    }
    outcome := Launch(nodePath, [bin.value] + envCmdArgs, env);
  }

  /** The whole script: parse, then run. */
  method RunWithEnv(argv: seq<string>, cwd: string, existing: set<string>, processEnv: Env,
                    envCmd: Option<EnvCmdPackage>, nodePath: string)
    returns (outcome: Outcome)
    ensures ParseFrom(argv, 0, InitialArgs) == ShowHelp ==> outcome == Help
    ensures ParseFrom(argv, 0, InitialArgs).Die? ==> outcome == Fatal(ParseFrom(argv, 0, InitialArgs).message)
    ensures ParseFrom(argv, 0, InitialArgs).Parsed? ==>
      outcome == RunSpec(OwnKeysOnly, ParseFrom(argv, 0, InitialArgs).args, cwd, existing, processEnv, envCmd, nodePath)
  {
    var parsed := ParseArgs(argv);
    if parsed.ShowHelp? {
      return Help;
    }
    if parsed.Die? {
      return Fatal(parsed.message);
    }
    outcome := RunParsed(parsed.args, cwd, existing, processEnv, envCmd, nodePath);
  }
}
