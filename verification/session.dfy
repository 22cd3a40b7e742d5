/**
  The life cycle of the browser session held by the engine's `Browser` state
  (src/lib.rs:25-114, 689-707): connecting to an already running WebDriver
  server or spawning one, quitting the session, the guard every instruction
  runs first, and the teardown that kills a spawned driver process.

  The state is an immutable record and every operation a pure function. What
  the outside world does (building the async runtime, whether a driver already
  listens on the port, whether spawning works, whether the WebDriver calls
  succeed) is passed in as plain values.
*/
module Session {
  import opened Wrappers
  import Tokenizer

  /** The two browser families the engine can drive. */
  datatype Backend = Chrome | Firefox

  /**
    The environment variables read by `connect`, each unset or a string:
    TA_BROWSER_USE_CHROME / TA_BROWSER_USE_FIREFOX hold the driver executable's
    path, TA_BROWSER_WEBDRIVER_PORT overrides the port, and the four argument
    variables hold shell-like argument strings for the driver process and the
    browser.
  */
  datatype Config = Config(
    useChrome: Option<string>,
    useFirefox: Option<string>,
    port: Option<string>,
    chromedriverArgs: Option<string>,
    chromeArgs: Option<string>,
    geckodriverArgs: Option<string>,
    firefoxArgs: Option<string>)

  /**
    How the outside world answers during `connect`: whether the runtime can be
    built, the ports on which a driver already accepts a new session, whether
    the driver process starts, whether a session can then be opened on it, and
    whether navigating to the placeholder page works.
  */
  datatype World = World(
    runtimeBuilds: bool,
    listening: set<string>,
    spawnSucceeds: bool,
    spawnedSessionOpens: bool,
    navigationSucceeds: bool)

  /** An open WebDriver session: its backend, the local port, and the extra browser arguments it was opened with. */
  datatype Driver = Driver(backend: Backend, port: string, browserArgs: seq<string>)

  /** A driver process started by `connect`: its executable and command-line arguments. */
  datatype ChildProcess = ChildProcess(backend: Backend, path: string, args: seq<string>)

  /**
    The engine state: whether an async runtime exists, the open session if
    any, the spawned driver process if any, and the query timeout and polling
    interval in milliseconds.
  */
  datatype Browser = Browser(
    rt: bool,
    driver: Option<Driver>,
    child: Option<ChildProcess>,
    timeoutMs: nat,
    intervalMs: nat)

  /** The errors the life cycle reports. */
  datatype Error =
    | NotInitialised
    | RuntimeFailed
    | NotImplemented
    | SpawnFailed(backend: Backend)
    | SessionRefused
    | NavigationFailed
    | CloseFailed
    | InstructionFailed(message: string)

  /** The state after an operation, with what the operation reported. */
  datatype Transition = Transition(state: Browser, outcome: Outcome<Error>)

  /** What teardown does: nothing, kill the recorded process, or panic because the kill failed. */
  datatype Shutdown = NothingToKill | Killed(process: ChildProcess) | KillPanicked(process: ChildProcess)

  /** The backend chosen by the configuration and the path of its driver executable. */
  datatype Selection = Selection(backend: Backend, driverPath: string)

  /** The state before any instruction: nothing open, a 10 s timeout and a 100 ms polling interval. */
  function Default(): Browser {
    Browser(false, None, None, 10_000, 100)
  }

  /** Both a runtime and a session are present: instructions may run. */
  predicate Ready(b: Browser) {
    b.rt && b.driver.Some?
  }

  /** The backend to use; Chrome is tried first. */
  function Select(cfg: Config): Option<Selection> {
    if cfg.useChrome.Some? then Some(Selection(Chrome, cfg.useChrome.value))
    else if cfg.useFirefox.Some? then Some(Selection(Firefox, cfg.useFirefox.value))
    else None
  }

  /** The port the driver of each backend listens on by default. */
  function DefaultPort(backend: Backend): string {
    match backend
    case Chrome => "9515"
    case Firefox => "4444"
  }

  /** The port used for a backend: the override if set, otherwise the backend's default. */
  function PortFor(backend: Backend, cfg: Config): string {
    cfg.port.GetOr(DefaultPort(backend))
  }

  /** The argument string for the driver process of a backend (empty when unset). */
  function DriverArgString(backend: Backend, cfg: Config): string {
    match backend
    case Chrome => cfg.chromedriverArgs.GetOr("")
    case Firefox => cfg.geckodriverArgs.GetOr("")
  }

  /** The argument string for the browser of a backend (empty when unset). */
  function BrowserArgString(backend: Backend, cfg: Config): string {
    match backend
    case Chrome => cfg.chromeArgs.GetOr("")
    case Firefox => cfg.firefoxArgs.GetOr("")
  }

  /** The driver process `connect` starts for a selection. */
  function SpawnedProcess(sel: Selection, cfg: Config): ChildProcess {
    ChildProcess(sel.backend, sel.driverPath, Tokenizer.StringToArgs(DriverArgString(sel.backend, cfg)))
  }

  /** `connect` takes the spawn path: a backend is configured but no driver accepts a session on its port. */
  predicate TriesSpawn(cfg: Config, w: World) {
    && w.runtimeBuilds
    && Select(cfg).Some?
    && PortFor(Select(cfg).value.backend, cfg) !in w.listening
  }

  /** `connect` records a new driver process. */
  predicate Spawns(cfg: Config, w: World) {
    TriesSpawn(cfg, w) && w.spawnSucceeds
  }

  /** Navigating a fresh session to the placeholder page and storing it. */
  function Adopt(b: Browser, d: Driver, w: World): Transition {
    if w.navigationSucceeds then Transition(b.(driver := Some(d)), Pass)
    else Transition(b, Fail(NavigationFailed))
  }

  /**
    `connect`: build the runtime (stored before anything else), choose the
    backend, reuse a driver already listening on the port, otherwise spawn the
    driver with the parsed process arguments and open a session with the
    parsed browser arguments, then show the placeholder page and store the
    session.
  */
  function Connect(b: Browser, cfg: Config, w: World): (r: Transition)
    ensures r.state.timeoutMs == b.timeoutMs && r.state.intervalMs == b.intervalMs
    ensures !w.runtimeBuilds ==> r == Transition(b, Fail(RuntimeFailed))
    ensures w.runtimeBuilds ==> r.state.rt
    ensures w.runtimeBuilds && cfg.useChrome.None? && cfg.useFirefox.None? ==>
      r == Transition(b.(rt := true), Fail(NotImplemented))
    ensures TriesSpawn(cfg, w) && !w.spawnSucceeds ==>
      r == Transition(b.(rt := true), Fail(SpawnFailed(Select(cfg).value.backend)))
    ensures Spawns(cfg, w) && !w.spawnedSessionOpens ==>
      r == Transition(b.(rt := true, child := Some(SpawnedProcess(Select(cfg).value, cfg))), Fail(SessionRefused))
    ensures (&& w.runtimeBuilds
             && Select(cfg).Some?
             && (PortFor(Select(cfg).value.backend, cfg) in w.listening || (w.spawnSucceeds && w.spawnedSessionOpens))
             && !w.navigationSucceeds) ==>
      r.outcome == Fail(NavigationFailed)
    ensures r.outcome.Fail? ==> r.state.driver == b.driver
    ensures r.outcome.Pass? <==>
      && w.runtimeBuilds
      && (cfg.useChrome.Some? || cfg.useFirefox.Some?)
      && (PortFor(Select(cfg).value.backend, cfg) in w.listening || (w.spawnSucceeds && w.spawnedSessionOpens))
      && w.navigationSucceeds
    ensures r.outcome.Pass? ==>
      && r.state.driver.Some?
      && r.state.driver.value.backend == (if cfg.useChrome.Some? then Chrome else Firefox)
      && r.state.driver.value.port == cfg.port.GetOr(if cfg.useChrome.Some? then "9515" else "4444")
      && r.state.driver.value.browserArgs ==
        (if r.state.driver.value.port in w.listening then []
         else Tokenizer.StringToArgs(BrowserArgString(r.state.driver.value.backend, cfg)))
    ensures r.state.child == (if Spawns(cfg, w) then Some(SpawnedProcess(Select(cfg).value, cfg)) else b.child)
  {
    if !w.runtimeBuilds then Transition(b, Fail(RuntimeFailed))
    else
      var b1 := b.(rt := true);
      match Select(cfg)
      case None => Transition(b1, Fail(NotImplemented))
      case Some(sel) =>
        var port := PortFor(sel.backend, cfg);
        if port in w.listening then
          Adopt(b1, Driver(sel.backend, port, []), w)
        else
          var browserArgs := Tokenizer.StringToArgs(BrowserArgString(sel.backend, cfg));
          if !w.spawnSucceeds then Transition(b1, Fail(SpawnFailed(sel.backend)))
          else
            var b2 := b1.(child := Some(SpawnedProcess(sel, cfg)));
            if !w.spawnedSessionOpens then Transition(b2, Fail(SessionRefused))
            else Adopt(b2, Driver(sel.backend, port, browserArgs), w)
  }

  /**
    `quit`: take the runtime, then take the session, then close it. Either
    missing reports NotInitialised; the runtime is taken even when the session
    turns out to be missing. The spawned process is left alone.
  */
  function Quit(b: Browser, closes: bool): (r: Transition)
    ensures r.state.child == b.child
    ensures r.state.timeoutMs == b.timeoutMs && r.state.intervalMs == b.intervalMs
    ensures r.outcome == Fail(NotInitialised) <==> !Ready(b)
    ensures Ready(b) ==> !r.state.rt && r.state.driver.None? && (r.outcome.Pass? <==> closes)
    ensures Ready(b) && !closes ==> r.outcome == Fail(CloseFailed)
    ensures !Ready(b) ==> r.state == b.(rt := false)
  {
    if !b.rt then Transition(b, Fail(NotInitialised))
    else
      var b1 := b.(rt := false);
      if b1.driver.None? then Transition(b1, Fail(NotInitialised))
      else Transition(b1.(driver := None), if closes then Pass else Fail(CloseFailed))
  }

  /** The check every instruction makes first: it yields the open session or NotInitialised. */
  function Guard(b: Browser): (r: Result<Driver, Error>)
    ensures r.Success? <==> Ready(b)
    ensures r.Success? ==> b.driver == Some(r.value)
    ensures r.Failure? ==> r.error == NotInitialised
  {
    if !b.rt then Failure(NotInitialised)
    else if b.driver.None? then Failure(NotInitialised)
    else Success(b.driver.value)
  }

  /** An instruction: the guard, then the WebDriver action on the open session. */
  function Instruction(b: Browser, action: Driver -> Outcome<Error>): (r: Outcome<Error>)
    ensures !Ready(b) ==> r == Fail(NotInitialised)
    ensures Ready(b) ==> r == action(b.driver.value)
  {
    match Guard(b)
    case Failure(e) => Fail(e)
    case Success(d) => action(d)
  }

  /** Teardown (`Drop`): kill the recorded driver process if there is one; a failed kill panics. */
  function Teardown(b: Browser, killSucceeds: bool): (r: Shutdown)
    ensures r.NothingToKill? <==> b.child.None?
    ensures b.child.Some? ==> r.process == b.child.value && (r.Killed? <==> killSucceeds)
  {
    match b.child
    case None => NothingToKill
    case Some(p) => if killSucceeds then Killed(p) else KillPanicked(p)
  }
}
