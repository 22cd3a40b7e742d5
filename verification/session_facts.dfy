/**
  Properties of the session life cycle (src/lib.rs:42-114, 689-707) that
  relate several operations: the ordering quirks of `connect` and `quit`, and
  the guarantee that the last spawned driver process is killed at teardown whatever
  happened in between.
*/
module SessionFacts {
  import opened Wrappers
  import opened Session

  /** The initial state rejects every instruction and `quit`, and has nothing to kill. */
  lemma DefaultIsIdle(action: Driver -> Outcome<Error>, closes: bool, killSucceeds: bool)
    ensures Default().timeoutMs == 10_000 && Default().intervalMs == 100
    ensures Instruction(Default(), action) == Fail(NotInitialised)
    ensures Quit(Default(), closes) == Transition(Default(), Fail(NotInitialised))
    ensures Teardown(Default(), killSucceeds) == NothingToKill
  {
  }

  /**
    `connect` stores the runtime before choosing a backend, so a connect that
    fails after the runtime is built, from a state without a session, leaves a
    runtime but no session: instructions still fail, and a later `quit` clears
    the runtime again. (A runtime that fails to build is never stored.)
  */
  lemma FailedConnectLeavesRuntime(b: Browser, cfg: Config, w: World, closes: bool)
    requires b.driver.None?
    requires w.runtimeBuilds
    requires Connect(b, cfg, w).outcome.Fail?
    ensures Connect(b, cfg, w).state.rt
    ensures Connect(b, cfg, w).state.driver.None?
    ensures !Ready(Connect(b, cfg, w).state)
    ensures Quit(Connect(b, cfg, w).state, closes).outcome == Fail(NotInitialised)
    ensures !Quit(Connect(b, cfg, w).state, closes).state.rt
  {
  }

  /** Without a backend configured, `connect` fails and never starts a process. */
  lemma NoBackendFails(b: Browser, cfg: Config, w: World)
    requires cfg.useChrome.None? && cfg.useFirefox.None?
    ensures Connect(b, cfg, w).outcome.Fail?
    ensures Connect(b, cfg, w).state.child == b.child
    ensures Connect(b, cfg, w).state.driver == b.driver
  {
  }

  /** `quit` takes the runtime before looking for the session: a quit without a session still clears the runtime. */
  lemma QuitWithoutSessionClearsRuntime(b: Browser, closes: bool)
    requires b.rt && b.driver.None?
    ensures Quit(b, closes) == Transition(b.(rt := false), Fail(NotInitialised))
  {
  }

  /** A driver already listening on the port is reused: no process is started. */
  lemma ReuseNeverSpawns(b: Browser, cfg: Config, w: World)
    requires Select(cfg).Some?
    requires PortFor(Select(cfg).value.backend, cfg) in w.listening
    ensures Connect(b, cfg, w).state.child == b.child
    ensures w.runtimeBuilds && w.navigationSucceeds ==> Connect(b, cfg, w).outcome.Pass?
  {
  }

  /** A spawned process runs the configured executable with the parsed driver arguments. */
  lemma SpawnUsesParsedArguments(b: Browser, cfg: Config, w: World)
    requires Spawns(cfg, w)
    ensures var sel := Select(cfg).value;
      Connect(b, cfg, w).state.child == Some(ChildProcess(sel.backend, sel.driverPath, Tokenizer.StringToArgs(DriverArgString(sel.backend, cfg))))
  {
  }

  /** Teardown does not depend on whether `quit` ran first. */
  lemma TeardownIgnoresQuit(b: Browser, closes: bool, killSucceeds: bool)
    ensures Teardown(Quit(b, closes).state, killSucceeds) == Teardown(b, killSucceeds)
  {
  }

  /** After a successful connect, instructions reach the session that was just opened, and a quit whose close succeeds passes. */
  lemma ConnectEnablesInstructions(b: Browser, cfg: Config, w: World, action: Driver -> Outcome<Error>)
    requires Connect(b, cfg, w).outcome.Pass?
    ensures Ready(Connect(b, cfg, w).state)
    ensures Instruction(Connect(b, cfg, w).state, action) == action(Connect(b, cfg, w).state.driver.value)
    ensures Quit(Connect(b, cfg, w).state, true).outcome.Pass?
  {
  }

  /** The operations the host engine can invoke on the state. */
  datatype Command =
    | ConnectCmd(cfg: Config, world: World)
    | QuitCmd(closes: bool)
    | InstructionCmd(action: Driver -> Outcome<Error>)

  /** The state after one command (an instruction leaves it unchanged). */
  function Apply(b: Browser, c: Command): Browser {
    match c
    case ConnectCmd(cfg, w) => Connect(b, cfg, w).state
    case QuitCmd(closes) => Quit(b, closes).state
    case InstructionCmd(_) => b
  }

  /** The state after a sequence of commands. */
  function Run(b: Browser, cs: seq<Command>): Browser
    decreases |cs|
  {
    if |cs| == 0 then b else Apply(Run(b, cs[..|cs| - 1]), cs[|cs| - 1])
  }

  /** Command `i` is a connect that starts a driver process. */
  predicate SpawnsAt(cs: seq<Command>, i: int)
    requires 0 <= i < |cs|
  {
    cs[i].ConnectCmd? && Spawns(cs[i].cfg, cs[i].world)
  }

  /**
    Starting from the initial state, a process is recorded exactly when some
    connect spawned one, and the timeout and interval never change.
  */
  lemma {:induction false} ChildRecordedIffSpawned(cs: seq<Command>)
    ensures Run(Default(), cs).child.Some? <==> exists i :: 0 <= i < |cs| && SpawnsAt(cs, i)
    ensures Run(Default(), cs).timeoutMs == 10_000 && Run(Default(), cs).intervalMs == 100
    decreases |cs|
  {
    if |cs| > 0 {
      var p := cs[..|cs| - 1];
      ChildRecordedIffSpawned(p);
      assert forall i :: 0 <= i < |p| ==> (SpawnsAt(p, i) <==> SpawnsAt(cs, i));
      if Run(Default(), cs).child.Some? && !SpawnsAt(cs, |cs| - 1) {
        var i :| 0 <= i < |p| && SpawnsAt(p, i);
        assert SpawnsAt(cs, i);
      }
    }
  }

  /**
    After any sequence of commands from the initial state, teardown kills a
    process (or panics trying) exactly when some connect spawned one, whether
    or not `quit` ran afterwards.
  */
  lemma KillsIffSpawned(cs: seq<Command>, killSucceeds: bool)
    ensures Teardown(Run(Default(), cs), killSucceeds).NothingToKill? <==> forall i :: 0 <= i < |cs| ==> !SpawnsAt(cs, i)
  {
    ChildRecordedIffSpawned(cs);
  }

  /** From any state, the process recorded by the last spawning connect is the one teardown kills. */
  lemma {:induction false} LastSpawnIsKilled(b: Browser, cs: seq<Command>, j: nat, killSucceeds: bool)
    requires j < |cs| && SpawnsAt(cs, j)
    requires forall i :: j < i < |cs| ==> !SpawnsAt(cs, i)
    ensures Run(b, cs).child == Some(SpawnedProcess(Select(cs[j].cfg).value, cs[j].cfg))
    ensures !Teardown(Run(b, cs), killSucceeds).NothingToKill?
    ensures Teardown(Run(b, cs), killSucceeds).process == SpawnedProcess(Select(cs[j].cfg).value, cs[j].cfg)
    decreases |cs|
  {
    var p := cs[..|cs| - 1];
    if j < |cs| - 1 {
      assert SpawnsAt(p, j);
      forall i | j < i < |p|
        ensures !SpawnsAt(p, i)
      {
        assert !SpawnsAt(cs, i);
      }
      LastSpawnIsKilled(b, p, j, killSucceeds);
      assert !SpawnsAt(cs, |cs| - 1);
    }
  }

  /** The number of connects in `cs` that start a driver process. */
  function SpawnCount(cs: seq<Command>): nat
    decreases |cs|
  {
    if |cs| == 0 then 0
    else SpawnCount(cs[..|cs| - 1]) + (if SpawnsAt(cs, |cs| - 1) then 1 else 0)
  }

  /** The number of processes teardown kills or tries to kill. */
  function KillCount(r: Shutdown): nat {
    if r.NothingToKill? then 0 else 1
  }

  /** Some connect spawned a process exactly when the spawn count is positive. */
  lemma {:induction false} SpawnCountPositive(cs: seq<Command>)
    ensures SpawnCount(cs) > 0 <==> exists i :: 0 <= i < |cs| && SpawnsAt(cs, i)
    decreases |cs|
  {
    if |cs| > 0 {
      var p := cs[..|cs| - 1];
      SpawnCountPositive(p);
      assert forall i :: 0 <= i < |p| ==> (SpawnsAt(p, i) <==> SpawnsAt(cs, i));
      if SpawnCount(cs) > 0 && !SpawnsAt(cs, |cs| - 1) {
        var i :| 0 <= i < |p| && SpawnsAt(p, i);
        assert SpawnsAt(cs, i);
      }
    }
  }

  /**
    A spawning connect overwrites the recorded process without killing the one
    recorded before, so teardown kills at most one process however many were
    started: after `n` spawns, `n - 1` driver processes are never killed.
  */
  lemma OnlyOneSpawnKilled(cs: seq<Command>, killSucceeds: bool)
    ensures KillCount(Teardown(Run(Default(), cs), killSucceeds)) == (if SpawnCount(cs) == 0 then 0 else 1)
  {
    SpawnCountPositive(cs);
    KillsIffSpawned(cs, killSucceeds);
  }

  /**
    A concrete lost process: a Chrome connect starts chromedriver but the
    session is refused, so it fails with the process recorded; the retry starts
    a second chromedriver and succeeds. Two processes were started and
    teardown kills one.
  */
  lemma RetriedConnectLeaksDriver(killSucceeds: bool)
    ensures var cfg := Config(Some("chromedriver"), None, None, None, None, None, None);
      var refused := World(true, {}, true, false, true);
      var opens := World(true, {}, true, true, true);
      var cs := [ConnectCmd(cfg, refused), ConnectCmd(cfg, opens)];
      && Connect(Default(), cfg, refused).outcome == Fail(SessionRefused)
      && Connect(Run(Default(), cs[..1]), cfg, opens).outcome == Pass
      && SpawnCount(cs) == 2
      && KillCount(Teardown(Run(Default(), cs), killSucceeds)) == 1
  {
    var cfg := Config(Some("chromedriver"), None, None, None, None, None, None);
    var refused := World(true, {}, true, false, true);
    var opens := World(true, {}, true, true, true);
    var cs := [ConnectCmd(cfg, refused), ConnectCmd(cfg, opens)];
    assert cs[..1] == [ConnectCmd(cfg, refused)];
    assert cs[..1][..0] == [];
    assert SpawnsAt(cs, 0) && SpawnsAt(cs, 1);
    assert SpawnCount(cs[..1]) == 1;
    assert cs[..|cs| - 1] == cs[..1];
    OnlyOneSpawnKilled(cs, killSucceeds);
  }
}
