/** The two window slots of the shell: the loading window shown while the backend starts and the
    main window. A slot holds at most one window; asking for a window while one is held returns
    it unchanged, and the window's `closed` event empties its slot again. Electron windows are
    reduced to what was loaded into them. */
module Frontend {
  import opened Wrappers
  import PathUtils

  /** What a window was asked to show. */
  datatype Content =
    | NotLoaded                 // construction succeeded but loading threw
    | Url(url: string)          // `loadURL`
    | File(path: string)        // `loadFile`

  /** A window: its identity, what it shows, whether devtools were opened, and whether a
      `closed` handler that empties its slot was registered. */
  datatype Window = Window(id: nat, content: Content, devTools: bool, resetsSlotOnClose: bool)

  /** A line handed to the logger. */
  datatype LogEntry = LogEntry(dir: string, message: string, logType: string)

  /** Which step of creating the loading window throws, if any. */
  datatype LoadingFailure = Created | ConstructorThrows | LoadThrows

  /** The page shown in the loading window: the dev server when one is configured, the bundled
      renderer page otherwise. */
  function LoadingContent(devServerUrl: string, appDir: string, rendererName: string): Content {
    if devServerUrl != "" then Url(devServerUrl)
    else File(PathUtils.PathJoin(appDir, "../renderer/" + rendererName + "/index.html"))
  }

  /** The main window `createWindow` builds, and the lines it logs to `info.log` under `logDir`:
      the production entry when it exists, else the dev entry with devtools open; both log the
      production path, the fallback also logs the dev path; either way a `closed` handler is
      registered. */
  function NewMainWindow(id: nat, env: PathUtils.Env, cwd: string, resourcesPath: string,
                         existing: set<string>, logDir: string): (made: (Window, seq<LogEntry>))
    ensures var prod := PathUtils.FirstExisting(PathUtils.AllFrontendEntries(resourcesPath, PathUtils.FrontendOrder(env)), existing);
      var dev := PathUtils.FirstExisting(PathUtils.DevFrontendCandidates(cwd, PathUtils.GetFrontendName(env)), existing);
      var w := made.0;
      w.id == id && w.resetsSlotOnClose
      && (prod in existing ==>
            w.content == File(prod) && !w.devTools
            && made.1 == [LogEntry(logDir, "Loading file: " + prod, "info")])
      && (prod !in existing ==>
            w.content == File(dev) && w.devTools
            && made.1 == [LogEntry(logDir, "Loading file: " + prod, "info"),
                          LogEntry(logDir, "Dev fallback file: " + dev, "info")])
  {
    var prod := PathUtils.FirstExisting(PathUtils.AllFrontendEntries(resourcesPath, PathUtils.FrontendOrder(env)), existing);
    var loading := LogEntry(logDir, "Loading file: " + prod, "info");
    if prod in existing then (Window(id, File(prod), false, true), [loading])
    else
      var dev := PathUtils.FirstExisting(PathUtils.DevFrontendCandidates(cwd, PathUtils.GetFrontendName(env)), existing);
      (Window(id, File(dev), true, true), [loading, LogEntry(logDir, "Dev fallback file: " + dev, "info")])
  }

  class WindowManager {
    var loadingWindow: Option<Window>
    var mainWindow: Option<Window>
    var nextId: nat
    var logs: seq<LogEntry>

    /** Every window held was created by this manager. */
    ghost predicate Valid()
      reads this
    {
      (loadingWindow.Some? ==> loadingWindow.value.id < nextId)
      && (mainWindow.Some? ==> mainWindow.value.id < nextId)
    }

    /** The module starts with both slots empty. */
    constructor ()
      ensures loadingWindow == None && mainWindow == None && logs == [] && Valid()
    {
      loadingWindow := None;
      mainWindow := None;
      nextId := 0;
      logs := [];
    }

    /** `createLoadingWindow`. A held window is returned unchanged. Otherwise a new window is
        built and loaded; when that throws the error is logged to `error.log` under `logDir`
        and the result is null, and when it was the load that threw the half-made window stays
        in the slot without a `closed` handler. */
    method CreateLoadingWindow(devServerUrl: string, appDir: string, rendererName: string,
                               logDir: string, failure: LoadingFailure, error: string)
      returns (w: Option<Window>)
      requires Valid()
      modifies this
      ensures Valid() && mainWindow == old(mainWindow)
      ensures old(loadingWindow).Some? ==>
        w == old(loadingWindow) && loadingWindow == old(loadingWindow) && logs == old(logs)
      ensures old(loadingWindow).None? && failure == Created ==>
        w == Some(Window(old(nextId), LoadingContent(devServerUrl, appDir, rendererName), false, true))
        && loadingWindow == w && logs == old(logs)
      ensures old(loadingWindow).None? && failure != Created ==>
        w == None && logs == old(logs) + [LogEntry(logDir, error, "error")]
        && loadingWindow == (if failure == LoadThrows then Some(Window(old(nextId), NotLoaded, false, false)) else None)
    {
      if loadingWindow.Some? {
        return loadingWindow;
      }
      if failure == ConstructorThrows {
        logs := logs + [LogEntry(logDir, error, "error")];
        return None;
      }
      loadingWindow := Some(Window(nextId, NotLoaded, false, false));
      nextId := nextId + 1;
      if failure == LoadThrows {
        logs := logs + [LogEntry(logDir, error, "error")];
        return None;
      }
      loadingWindow := Some(loadingWindow.value.(content := LoadingContent(devServerUrl, appDir, rendererName),
                                                 resetsSlotOnClose := true));
      w := loadingWindow;
    }

    /** The loading window's `closed` event: its handler empties the slot. */
    method LoadingWindowClosed()
      requires Valid()
      modifies this
      ensures Valid() && mainWindow == old(mainWindow) && logs == old(logs) && nextId == old(nextId)
      ensures old(loadingWindow).Some? && old(loadingWindow).value.resetsSlotOnClose ==> loadingWindow == None
      ensures !(old(loadingWindow).Some? && old(loadingWindow).value.resetsSlotOnClose) ==>
        loadingWindow == old(loadingWindow)
    {
      if loadingWindow.Some? && loadingWindow.value.resetsSlotOnClose {
        loadingWindow := None;
      }
    }

    /** `createWindow`. A held main window is returned unchanged. Otherwise a new window is built
        as `NewMainWindow` says and its log lines are appended. */
    method CreateWindow(env: PathUtils.Env, cwd: string, resourcesPath: string, existing: set<string>,
                        logDir: string)
      returns (w: Window)
      requires Valid()
      modifies this
      ensures Valid() && loadingWindow == old(loadingWindow) && mainWindow == Some(w)
      ensures old(mainWindow).Some? ==> w == old(mainWindow).value && logs == old(logs)
      ensures old(mainWindow).None? ==>
        var made := NewMainWindow(old(nextId), env, cwd, resourcesPath, existing, logDir);
        w == made.0 && logs == old(logs) + made.1
    {
      if mainWindow.Some? {
        return mainWindow.value;
      }
      var id := nextId;
      ghost var made := NewMainWindow(id, env, cwd, resourcesPath, existing, logDir);
      var entryPath := PathUtils.GetProductionFrontendPath(env, resourcesPath, existing);
      var loading := LogEntry(logDir, "Loading file: " + entryPath, "info");
      var lines: seq<LogEntry>;
      if entryPath in existing {
        w := Window(id, File(entryPath), false, true);
        lines := [loading];
      } else {
        var devPath := PathUtils.GetDevFrontendPath(env, cwd, existing);
        w := Window(id, File(devPath), true, true);
        lines := [loading, LogEntry(logDir, "Dev fallback file: " + devPath, "info")];
      }
      assert (w, lines) == made;
      nextId := nextId + 1;
      logs := logs + lines;
      mainWindow := Some(w);
    }

    /** The main window's `closed` event: its handler empties the slot. */
    method MainWindowClosed()
      requires Valid()
      modifies this
      ensures Valid() && loadingWindow == old(loadingWindow) && logs == old(logs) && nextId == old(nextId)
      ensures old(mainWindow).Some? && old(mainWindow).value.resetsSlotOnClose ==> mainWindow == None
      ensures !(old(mainWindow).Some? && old(mainWindow).value.resetsSlotOnClose) ==> mainWindow == old(mainWindow)
    {
      if mainWindow.Some? && mainWindow.value.resetsSlotOnClose {
        mainWindow := None;
      }
    }
  }
}
