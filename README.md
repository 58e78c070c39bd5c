# slack-mcp-server launcher, modelled in Dafny

The npm entry point `bin/slack-mcp-server.js` of slack-mcp-server is a small
launcher. It looks for a prebuilt server binary in the `build` directory beside
its own `bin` directory. The binary is `slack-mcp-server.exe` on `win32` and
`slack-mcp-server` on every other platform. When that file exists, the launcher
starts it directly, without a shell, and passes on the user's arguments. When it
does not exist, the launcher probes for the Go toolchain with `go version`. If
`go` is missing, it writes a diagnostic to standard error and exits with status 1.
Otherwise it runs `go run <root>/cmd/slack-mcp-server/main.go <user arguments>`
through the shell. Whichever child it starts, the launcher exits with that
child's exit code.

The model has three modules:

- `Paths` (paths.dfy): absolute paths as sequences of names below the root.
  It models the normalisation that `path.resolve` and `path.join` perform.
  Empty and `.` names are dropped, and `..` climbs one level but never above
  the root. It also gives the POSIX text of a path.
- `Lifecycle` (lifecycle.dfy): what one run does, as a trace of events. The
  events are: the probe spawned, the child launched, the child's exit, a line
  written to standard error, and the launcher's own exit. A terminal state
  machine over these events,
  `Resolving -> (Probing ->) Spawned -> Relaying -> Exited` or
  `Resolving -> Probing -> Reporting -> Failed`, comes with lemmas. Once a
  child is launched, the run never returns to resolution or probing. At most
  one child is launched. The machine refuses a launcher exit whose code
  differs from the one the child's exit event carried, so an exited run ends
  with exactly the child's code. A failed run launched nothing and reported
  an error before exiting.
- `Dispatcher` (dispatcher.dfy): the launcher itself. It has the binary name,
  the binary and entry-point paths, `argv.slice(2)`, the `go run` argument
  vector, the probe's verdict, and the pure decision `Decide`. `Dispatch`
  follows the script's steps in order and is proved against `Decide` and the
  state machine.

Inputs that the real program reads from its environment become parameters:
- `process.platform`;
- the script's directory `__dirname`;
- the set of existing files, for `fs.existsSync`;
- `process.argv`;
- how the `go version` probe settled;
- the exit code of the launched child. `None` stands for Node's `null` code
  after a signal.

`__dirname` is always absolute, so `path.resolve` never consults the working
directory. The model therefore has no working-directory input, and
`BinaryPath` is a function of the platform and the script's directory alone.

The script has no platform-package lookup and no permission-bit repair. Its
only two candidates are the sibling binary and `go run`. The `go run` spawn
uses `shell: true`. Neither launch spawn has an `error` handler.

## Model

| member | source | states |
|---|---|---|
| `Dispatcher.BinaryName` | bin/slack-mcp-server.js:18 | the name starts with `slack-mcp-server`; it ends in `.exe` if and only if the platform is `win32`; its length is that of `slack-mcp-server` plus 4 on `win32` and nothing more elsewhere, so it is exactly `slack-mcp-server.exe` or `slack-mcp-server`; it is a plain path name |
| `Dispatcher.BinaryPath` | bin/slack-mcp-server.js:19 | the binary path is the parent of the normalised script directory, then `build`, then the binary name; it depends on nothing but the platform and the script directory |
| `Dispatcher.GoEntryPoint` | bin/slack-mcp-server.js:45 | the entry point is the parent of the normalised script directory, then `cmd/slack-mcp-server/main.go` |
| `Dispatcher.LayoutBesideBin` | bin/slack-mcp-server.js:19-45 | with the script in `<root>/bin`, the binary is `<root>/build/<name>` and the entry point is `<root>/cmd/slack-mcp-server/main.go` |
| `Dispatcher.UserArgs` | bin/slack-mcp-server.js:23 | `argv.slice(2)`: the user arguments are `argv` from index 2 on, in order, and empty when `argv` has at most two entries |
| `Dispatcher.FallbackArgs` | bin/slack-mcp-server.js:47 | the `go` argument vector is `run`, then the entry point's text, then exactly the user arguments |
| `Dispatcher.GoAvailable` | bin/slack-mcp-server.js:8-13 | `go` is available if and only if the probe exited with code 0; a spawn error, a non-zero code and a `null` code all mean unavailable |
| `Dispatcher.Decide` | bin/slack-mcp-server.js:21-47 | the plan is the binary exactly when it exists, and then its path is the parent of the normalised script directory plus `build/<name>`; it is the toolchain `go` exactly when the binary is missing and `go` is available; it is failure with status 1 exactly when both are missing |
| `Dispatcher.LaunchOf` | bin/slack-mcp-server.js:23-54 | a launch runs the plan's binary path as an executable, or the plan's toolchain command looked up on the search path; it passes the plan's argument vector; it uses a shell exactly for the toolchain |
| `Dispatcher.ToolchainIrrelevantWhenBinaryExists` | bin/slack-mcp-server.js:21-34 | when the binary exists, toolchain availability does not change the plan |
| `Dispatcher.UserArgsForwarded` | bin/slack-mcp-server.js:23-54 | every launch in closed form: the executable `<parent of script dir>/build/<name>` on `argv.slice(2)` without a shell, or `go` through the shell on `run`, the text of `<parent of script dir>/cmd/slack-mcp-server/main.go`, then `argv.slice(2)`; the user arguments are placed unchanged and in order in the vector handed to `spawn`, and only the binary, spawned without a shell, receives them as they are |
| `Dispatcher.Dispatch` | bin/slack-mcp-server.js:16-59 | a run is accepted by the state machine and ends in `Exited(launch of Decide's plan, child's code)`, or in `Failed(1)` when `Decide` finds no candidate; it probes once if the binary is missing and never if it exists, and every probe it spawns is `go version` through the shell; it launches at most one child; its last event is an exit with the child's code when it launched one, and with 1 otherwise |
| `Lifecycle.Step` | bin/slack-mcp-server.js:16-59 | terminal phases accept nothing; no transition leads back to `Resolving`; after a launch every transition keeps the same launch; a transition into `Failed` is an exit with that status; a transition into `Exited` comes only from relaying the child's code and is an exit with exactly that code |
| `Lifecycle.ErrorLines` | bin/slack-mcp-server.js:36-39 | the diagnostic lines are written in order, one error event per line |
| `Lifecycle.NoReturnAfterLaunch` | bin/slack-mcp-server.js:28-31 | after a launch, no probe and no second launch follows; the run stays launched with the same launch |
| `Lifecycle.AtMostOneLaunch` | bin/slack-mcp-server.js:21-58 | a run launches at most one child; it ends launched exactly when it launched one |
| `Lifecycle.RelayingEnds` | bin/slack-mcp-server.js:28-30 | once the child's code is known, the only accepted ending is the launcher exiting with that code |
| `Lifecycle.ExitCodeRelayed` | bin/slack-mcp-server.js:28-58 | a run that ends exited ends with the child's exit event followed by the launcher exiting with exactly the code that event carried |
| `Lifecycle.FailureIsReported` | bin/slack-mcp-server.js:35-41 | a run that ends failed launched nothing, wrote at least one error line, and ended with an exit with the failure status |
| `Lifecycle.DirectTrace` | bin/slack-mcp-server.js:21-31 | launching the binary, seeing it exit and exiting with its code is an accepted run ending `Exited`, with no probe and one launch |
| `Lifecycle.FallbackTrace` | bin/slack-mcp-server.js:34-58 | probing, launching `go`, seeing it exit and exiting with its code is an accepted run ending `Exited`, with one probe (the given one) and one launch |
| `Lifecycle.FailureTrace` | bin/slack-mcp-server.js:34-41 | probing, reporting a non-empty diagnostic and exiting with a status is an accepted run ending `Failed` with that status, with one probe and no launch |
| `Paths.NormalizeOnto` | bin/slack-mcp-server.js:19 | normalising onto a normalised prefix gives a normalised path no longer than its inputs |
| `Paths.Normalize` | bin/slack-mcp-server.js:19 | a normalised path has only plain names and is no longer than its input |
| `Paths.Resolve` | bin/slack-mcp-server.js:19 | resolving against an absolute base gives a normalised path |
| `Paths.Render` | bin/slack-mcp-server.js:45 | the text of an absolute path starts with `/` |
| `Paths.LastSlash` | bin/slack-mcp-server.js:45 | specification helper for the round trip of the entry point's text (the script searches no slashes): the index found holds `/` and no `/` follows it; -1 means no `/` at all |
| `Paths.SplitRender` | bin/slack-mcp-server.js:45 | reading the names back out of a path's text gives the path again, for normalised paths whose names hold no `/`; so the entry point's text in the `go` argument vector determines the path |
| `Paths.NormalizeOntoAppend` | bin/slack-mcp-server.js:19 | normalising a path in two pieces is the same as normalising it whole |
| `Paths.NormalizeOntoPlain` | bin/slack-mcp-server.js:19 | plain names are appended unchanged |
| `Paths.NormalizeCanonical` | bin/slack-mcp-server.js:19 | a normalised path is a fixed point of normalisation |
| `Paths.NormalizeIdempotent` | bin/slack-mcp-server.js:19 | normalisation is idempotent |
| `Paths.ResolveUpThen` | bin/slack-mcp-server.js:19-45 | resolving `..` and then plain names against a base gives the parent of the normalised base, then those names |

## Left out

- Process mechanics are not modelled: `child_process.spawn`, stream inheritance (`stdio: 'inherit'` and `'ignore'`), and the promise and event plumbing. A spawn is an event in the trace, and the child's exit code is an input.
- `fs.existsSync` and the real `go version` run are not modelled. They are inputs: a set of existing paths, and the first event (`error` or `exit`) that settled the probe's promise.
- The shell's quoting and word splitting for the `shell: true` spawns are not modelled. The model states only the argument vector the script builds.
- What `process.exit(null)` does after a child is ended by a signal is not modelled. That is Node runtime behaviour, so the model relays the `null` code as it is.
- A launch spawn that fails to start is not modelled. The script installs no `error` listener on those spawns, so Node throws the child's `error` event and the launcher dies with status 1 without relaying anything.
- Windows path syntax is not modelled: drive letters, `\` separators, and `path.win32` rules. Paths are POSIX paths, and names are assumed to contain no separator.
