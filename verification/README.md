# testangel-browser: argument tokenizer and session life cycle in Dafny

This project models the core of the TestAngel browser-automation engine, a
Rust plugin that exposes WebDriver operations as independent "instructions".
Two parts carry the logic:

- `string_to_args`, the tokenizer that turns a shell-like configuration
  string (from `TA_BROWSER_CHROMEDRIVER_ARGS`, `TA_BROWSER_CHROME_ARGS` and
  their Firefox counterparts) into process or browser arguments. It is modelled
  as a left fold (`Tokenizer.Scan`) of a step function over the characters,
  plus the final flush, and as the source's imperative loop
  (`Tokenizer.ParseArgs`) proved equal to the fold. `ArgsSpec` and `ArgsSplit`
  define, without the scanner, which characters separate arguments, which are
  kept, and what a quote- and backslash-free string splits into. The lemmas
  connect the two views. `ArgsExamples` proves the source's unit-test cases.
- The session life cycle of the engine's `Browser` state: `connect` (reuse a
  WebDriver server already listening on the port, otherwise spawn the driver
  executable), `quit`, the NotInitialised guard each instruction runs first,
  the `Default` state, and the `Drop` teardown that kills a spawned driver.
  The state is an immutable record (`Session.Browser`). Each operation is a
  pure function of the state, the configuration, and a `World` value that
  stands for the outcomes of I/O. `SessionFacts` states the ordering quirks
  and, over arbitrary sequences of commands, that the last spawned process is
  killed at teardown, and only that one.
- `ElementCodec` covers how element handles cross instruction boundaries as
  JSON strings. The JSON library and the WebDriver binding are function
  parameters. The model states the order of checks and which error each
  failure reports.

In the tokenizer, a backslash only affects a following double quote: it is always dropped, and an
escaped space still separates outside quotes. Every unquoted space emits the
current buffer, even an empty one. Only the final flush skips an empty buffer.

## Model

| member | source | states |
|---|---|---|
| Tokenizer.Scan | src/lib.rs:716-743 | after any input, neither the finished arguments nor the buffer contain a backslash |
| Tokenizer.StringToArgs | src/lib.rs:709-750 | no argument produced ever contains a backslash |
| Tokenizer.ParseArgs | src/lib.rs:709-750 | the source's mutable loop with its final flush computes exactly the fold-based result |
| ArgsSpec.ScanModes | src/lib.rs:716-743 | the escape flag holds exactly when the last character was a backslash; quote mode holds exactly when an odd number of unescaped quotes has been read |
| ArgsSpec.ScanAccounts | src/lib.rs:716-743 | each unquoted space finishes exactly one argument; finished arguments plus buffer are the input minus backslashes, unescaped quotes and unquoted spaces, in order |
| ArgsSpec.ArgsOnlyGrow | src/lib.rs:729-737 | arguments already emitted are never removed or changed by later characters |
| ArgsSpec.ArgsStable | src/lib.rs:729-737 | characters after the last unquoted space emit no argument |
| ArgsSpec.TokenCount | src/lib.rs:729-747 | the number of arguments is the number of unquoted spaces, plus one when the input ends outside quotes with a non-empty buffer |
| ArgsSpec.BalancedContent | src/lib.rs:716-747 | with balanced quotes the arguments concatenate to exactly the kept characters |
| ArgsSpec.UnterminatedQuote | src/lib.rs:745-747 | ending inside quotes drops the pending buffer; the emitted arguments plus that buffer still account for every kept character |
| ArgsSpec.UnterminatedKeepsEarlierArgs | src/lib.rs:745-747 | ending inside quotes yields exactly the arguments finished by the last unquoted space |
| ArgsSpec.EscapedQuoteIsLiteral | src/lib.rs:718-728 | a backslash and a quote append a literal quote and leave quote mode and the arguments unchanged |
| ArgsSpec.EscapedSpaceStillSeparates | src/lib.rs:726-737 | a backslash does not protect a following unquoted space: the space still finishes an argument |
| ArgsSpec.BufferSinceSeparator | src/lib.rs:716-743 | the pending buffer is exactly the kept characters read since the last unquoted space (or the start) |
| ArgsSpec.ArgumentBetweenSeparators | src/lib.rs:729-737 | the argument emitted at an unquoted space is exactly the kept characters since the previous unquoted space, at the index counting earlier unquoted spaces |
| ArgsSplit.PlainIsSplit | src/lib.rs:729-747 | without quotes or backslashes the result is the split on every space (empty pieces included), with only a final empty piece dropped |
| ArgsExamples.EmptyString | src/lib.rs:758 | unit test: empty input gives no arguments |
| ArgsExamples.SplitsOnSpaces | src/lib.rs:759-762 | unit test: `arga argb argc` gives three arguments |
| ArgsExamples.QuotedWord | src/lib.rs:763-766 | unit test: quotes around one word vanish |
| ArgsExamples.QuotedSpace | src/lib.rs:767-770 | unit test: a quoted space stays inside one argument |
| ArgsExamples.EscapedQuote | src/lib.rs:771-774 | unit test: an escaped quote inside quotes is kept literally |
| ArgsExamples.EmptyArguments | src/lib.rs:729-737 | leading and doubled spaces yield empty arguments |
| ArgsExamples.UnterminatedQuoteDropsTail | src/lib.rs:745-747 | `a "b c` gives only `a` |
| ArgsExamples.EscapedSpaceSeparates | src/lib.rs:726-737 | `a\ b` gives `a` and `b` |
| Session.Connect | src/lib.rs:42-101 | runtime stored first; Chrome preferred; port is the override else 9515/4444; success exactly when a backend is set and reuse or spawn-and-open works and navigation works; otherwise RuntimeFailed, NotImplemented, SpawnFailed for the backend, SessionRefused or NavigationFailed, each for its own cause; a process is recorded exactly on a successful spawn, with the parsed driver arguments; failure leaves the session as it was |
| Session.Quit | src/lib.rs:110-114 | NotInitialised exactly without runtime and session; the runtime is cleared even when the session is missing; success clears both, and a failed close reports CloseFailed; the spawned process is untouched |
| Session.Guard | src/lib.rs:126-127 | an instruction gets the stored session exactly when runtime and session are present, otherwise NotInitialised |
| Session.Instruction | src/lib.rs:125-129 | an instruction fails with NotInitialised without runtime and session, and otherwise acts on the stored session |
| Session.Teardown | src/lib.rs:701-707 | the recorded process is killed if and only if one exists; a failed kill panics |
| SessionFacts.DefaultIsIdle | src/lib.rs:689-699 | the initial state has 10 s timeout and 100 ms interval, rejects instructions and quit, and has nothing to kill |
| SessionFacts.FailedConnectLeavesRuntime | src/lib.rs:45-100 | a connect that fails after the runtime is built, from a state without a session, leaves a runtime but no session |
| SessionFacts.NoBackendFails | src/lib.rs:92-96 | without a backend, connect fails, keeps the session and starts no process |
| SessionFacts.QuitWithoutSessionClearsRuntime | src/lib.rs:111-112 | quit without a session reports NotInitialised yet clears the runtime |
| SessionFacts.ReuseNeverSpawns | src/lib.rs:51-76 | a driver listening on the port is reused and no process is started, for Chrome (lines 51-56) and Firefox (lines 71-76) alike |
| SessionFacts.SpawnUsesParsedArguments | src/lib.rs:58-83 | the spawned process gets the configured path and the tokenized driver arguments, for Chrome (lines 58-63) and Firefox (lines 78-83) alike |
| SessionFacts.TeardownIgnoresQuit | src/lib.rs:701-707 | teardown does the same whether or not quit ran first |
| SessionFacts.ConnectEnablesInstructions | src/lib.rs:98-100 | after a successful connect, instructions reach the new session and a quit whose close succeeds passes |
| SessionFacts.ChildRecordedIffSpawned | src/lib.rs:60-83 | over any command sequence from the initial state, a process is recorded exactly when some connect spawned one |
| SessionFacts.KillsIffSpawned | src/lib.rs:701-707 | over any command sequence from the initial state, teardown kills a process exactly when some connect spawned one |
| SessionFacts.LastSpawnIsKilled | src/lib.rs:60-83 | the process recorded by the last spawning connect (line 60 for Chrome, 80 for Firefox) is the one teardown kills |
| SessionFacts.OnlyOneSpawnKilled | src/lib.rs:60-83 | each spawn overwrites the recorded process, so teardown kills one process if any were spawned, however many were |
| SessionFacts.RetriedConnectLeaksDriver | src/lib.rs:60-69 | a connect whose spawned session is refused keeps its process recorded; a retry spawns again, and of the two processes teardown kills one |
| ElementCodec.Serialise | src/utils.rs:5-7 | serialising succeeds exactly when the JSON conversion does, giving its rendering |
| ElementCodec.Deserialise | src/utils.rs:9-13 | parse errors are reported before binding is tried; the two error kinds are told apart by their message prefix; success yields the bound element |
| ElementCodec.SelectInstruction | src/lib.rs:266-275 | a selection fails with NotInitialised without a session, passes on a query failure, and otherwise outputs the serialised element or reports the serialisation error |
| ElementCodec.ElementInstruction | src/lib.rs:393-402 | an element instruction checks the guard before looking at the parameter, then deserialises, then acts |
| ElementCodec.RoundTrip | src/utils.rs:5-13 | when JSON rendering and parsing are inverse and binding recovers the element, deserialising a serialised element gives it back |
| ElementCodec.SelectThenAct | src/lib.rs:266-275 | the handle a selection outputs, given to an element instruction on the same state, delivers the queried element to the action when the JSON libraries round-trip it |

## Left out

- The async runtime, `block_on` and all network I/O: their outcomes are the fields of `Session.World`.
- Reading environment variables: `Session.Config` holds their values.
- `process::Command::spawn`, the 500 ms sleep and `child.kill()`: spawn and kill outcomes are booleans.
- Session.Connect: a browser argument that `add_arg` rejects is ignored by the source; the model assumes every argument is accepted.
- Session.Connect: the reuse test is "a driver accepts a session on this port", a set of ports; why a direct connection fails is not modelled.
- The content of the placeholder page (`DEFAULT_URI`): only whether navigating to it succeeds is modelled.
- The per-instruction WebDriver calls (src/lib.rs:118-685): they are pass-throughs. `Session.Instruction` models their common guard with an arbitrary action.
- Query polling with `.wait(timeout, interval)`: a query is an oracle result. The model only keeps the timeout and interval values.
- ElementCodec.RoundTrip: the JSON conversion, parser and binding belong to external libraries. The round trip holds only under the stated assumptions about them.
- Screenshot evidence and base64 encoding: not related to the session or tokenizer logic.
- Only the last spawned driver process is killed: a second spawning connect (for example a retry after the spawned session was refused) overwrites the recorded process, and Rust's `Child` is not killed when dropped. The model keeps this behaviour, and `SessionFacts.OnlyOneSpawnKilled` and `SessionFacts.RetriedConnectLeaksDriver` state it; it does not promise that every spawned process is terminated.
- Rust's `Drop` runs once when the engine state is destroyed. `Session.Teardown` is a function of the final state.
