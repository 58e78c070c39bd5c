/** The launcher `bin/slack-mcp-server.js`: it runs the prebuilt server
    binary from the sibling `build` directory when that file exists, and
    otherwise falls back to `go run` on the Go entry point, failing with
    status 1 when `go` is not usable. The filesystem, the `go version`
    probe and the launched child's exit are inputs to the model. */
module Dispatcher {
  import opened Paths
  import opened Lifecycle

  const ExecutableBase: string := "slack-mcp-server"
  const WindowsSuffix: string := ".exe"

  /** The lines written to standard error when neither the binary nor the
      toolchain is there: one names the missing `go`, the others say how to
      install it or how to build the binary. */
  const Diagnostic: seq<string> := [
    "Error: \"go\" command not found in PATH.",
    "To run this server via npx without pre-compiled binaries, you must have Go installed.",
    "Install Go from https://go.dev/dl/",
    "Or run \"make build\" if you have Go installed elsewhere to create a binary."
  ]

  /** `spawn('go', ['version'], { shell: true, stdio: 'ignore' })`. */
  const GoVersionProbe: Launch := Launch(OnSearchPath("go"), ["version"], true)

  predicate EndsWith(s: string, suffix: string) {
    |suffix| <= |s| && s[|s| - |suffix|..] == suffix
  }

  /** The binary's file name: the `.exe` suffix is there on `win32` and on
      no other platform. */
  function BinaryName(platform: string): (name: string)
    ensures |ExecutableBase| <= |name| && name[..|ExecutableBase|] == ExecutableBase
    ensures EndsWith(name, WindowsSuffix) <==> platform == "win32"
    ensures |name| == |ExecutableBase| + (if platform == "win32" then |WindowsSuffix| else 0)
    ensures Plain(name)
  {
    if platform == "win32" then ExecutableBase + WindowsSuffix else ExecutableBase
  }

  /** `path.resolve(scriptDir, '..', 'build', name)`: the `build` directory
      beside the script's own directory. The working directory plays no part,
      because the script directory is absolute. */
  function BinaryPath(platform: string, scriptDir: Path): (p: Path)
    ensures p == Parent(Normalize(scriptDir)) + ["build", BinaryName(platform)]
  {
    ResolveUpThen(scriptDir, ["build", BinaryName(platform)]);
    assert [".."] + ["build", BinaryName(platform)] == ["..", "build", BinaryName(platform)];
    Resolve(scriptDir, ["..", "build", BinaryName(platform)])
  }

  /** `path.join(scriptDir, '..', 'cmd', 'slack-mcp-server', 'main.go')`. */
  function GoEntryPoint(scriptDir: Path): (p: Path)
    ensures p == Parent(Normalize(scriptDir)) + ["cmd", ExecutableBase, "main.go"]
  {
    ResolveUpThen(scriptDir, ["cmd", ExecutableBase, "main.go"]);
    assert [".."] + ["cmd", ExecutableBase, "main.go"] == ["..", "cmd", ExecutableBase, "main.go"];
    Resolve(scriptDir, ["..", "cmd", ExecutableBase, "main.go"])
  }

  /** `process.argv.slice(2)`: everything after the interpreter and the
      script, in order, and nothing when there is nothing after them. */
  function UserArgs(argv: seq<string>): (args: seq<string>)
    ensures |args| == if |argv| <= 2 then 0 else |argv| - 2
    ensures forall i | 0 <= i < |args| :: args[i] == argv[i + 2]
  {
    if |argv| <= 2 then [] else argv[2..]
  }

  /** `['run', goFile, ...userArgs]`. */
  function FallbackArgs(goFile: Path, userArgs: seq<string>): (args: seq<string>)
    ensures |args| == |userArgs| + 2
    ensures args[..2] == ["run", Render(goFile)]
    ensures args[2..] == userArgs
  {
    ["run", Render(goFile)] + userArgs
  }

  /** How the `go version` probe settled its promise: the first of its
      `error` and `exit` events. */
  datatype ProbeOutcome = ProbeError | ProbeExit(code: ExitCode)

  /** `go` is available exactly when the probe exited with code 0; a spawn
      error, a non-zero code and a signal (`null` code) all mean it is not. */
  function GoAvailable(probe: ProbeOutcome): (available: bool)
    ensures available <==> probe == ProbeExit(Some(0))
  {
    match probe
    case ProbeError => false
    case ProbeExit(code) => code == Some(0)
  }

  /** What one run of the launcher decides to do. */
  datatype Plan =
    | DirectBinary(path: Path, args: seq<string>)
    | Toolchain(command: string, args: seq<string>)
    | NoCandidate(status: int)

  /** The ordered resolution: the prebuilt binary when it exists, whatever
      the toolchain; else `go run` when `go` is available; else status 1. */
  function Decide(platform: string, scriptDir: Path, binaryExists: bool,
                  goAvailable: bool, argv: seq<string>): (plan: Plan)
    ensures plan.DirectBinary? <==> binaryExists
    ensures plan.Toolchain? <==> !binaryExists && goAvailable
    ensures plan.NoCandidate? <==> !binaryExists && !goAvailable
    ensures plan.DirectBinary? ==>
              plan.path == Parent(Normalize(scriptDir)) + ["build", BinaryName(platform)]
    ensures plan.Toolchain? ==> plan.command == "go"
    ensures plan.NoCandidate? ==> plan.status == 1
  {
    if binaryExists then
      DirectBinary(BinaryPath(platform, scriptDir), UserArgs(argv))
    else if !goAvailable then
      NoCandidate(1)
    else
      Toolchain("go", FallbackArgs(GoEntryPoint(scriptDir), UserArgs(argv)))
  }

  /** With the script in `<root>/bin`, the binary is `<root>/build/<name>`
      and the Go entry point `<root>/cmd/slack-mcp-server/main.go`. */
  lemma LayoutBesideBin(platform: string, root: Path)
    requires Canonical(root)
    ensures BinaryPath(platform, root + ["bin"]) == root + ["build", BinaryName(platform)]
    ensures GoEntryPoint(root + ["bin"]) == root + ["cmd", ExecutableBase, "main.go"]
  {
    NormalizeCanonical(root + ["bin"]);
  }

  /** The spawn a launching plan performs: the binary directly without a
      shell, the toolchain through the shell. */
  function LaunchOf(plan: Plan): (l: Launch)
    requires !plan.NoCandidate?
    ensures l.args == plan.args
    ensures l.shell <==> plan.Toolchain?
    ensures plan.DirectBinary? ==> l.command == Executable(plan.path)
    ensures plan.Toolchain? ==> l.command == OnSearchPath(plan.command)
  {
    match plan
    case DirectBinary(p, args) => Launch(Executable(p), args, false)
    case Toolchain(c, args) => Launch(OnSearchPath(c), args, true)
  }

  /** When the binary exists, toolchain availability does not affect the plan. */
  lemma ToolchainIrrelevantWhenBinaryExists(platform: string, scriptDir: Path,
                                            go1: bool, go2: bool, argv: seq<string>)
    ensures Decide(platform, scriptDir, true, go1, argv) == Decide(platform, scriptDir, true, go2, argv)
  {
  }

  /** The whole spawn of every launching plan: the binary beside `bin`,
      run without a shell on `argv.slice(2)`; or `go` through the shell on
      `run`, the entry point's text and then `argv.slice(2)`. The user's
      arguments are placed unchanged and in order in the vector handed to
      `spawn`; only the binary, spawned without a shell, receives them as
      they are. */
  lemma UserArgsForwarded(platform: string, scriptDir: Path, binaryExists: bool,
                          goAvailable: bool, argv: seq<string>)
    requires binaryExists || goAvailable
    ensures var user := argv[if |argv| <= 2 then |argv| else 2..];
            var launch := LaunchOf(Decide(platform, scriptDir, binaryExists, goAvailable, argv));
            launch ==
              if binaryExists then
                Launch(Executable(Parent(Normalize(scriptDir)) + ["build", BinaryName(platform)]),
                       user, false)
              else
                Launch(OnSearchPath("go"),
                       ["run", Render(Parent(Normalize(scriptDir)) + ["cmd", ExecutableBase, "main.go"])] + user,
                       true)
  {
  }

  /** A run of the launcher with the files in `existing`, the arguments
      `argv`, the probe settling as `probe` and the launched child exiting
      with `childExit`. It returns what the run does, in order: the probe it
      spawns is `go version` through the shell, and a launched child's exit
      is relayed as the launcher's own. */
  method Dispatch(platform: string, scriptDir: Path, existing: set<Path>,
                  argv: seq<string>, probe: ProbeOutcome, childExit: ExitCode)
    returns (events: seq<Event>)
    ensures var plan := Decide(platform, scriptDir, BinaryPath(platform, scriptDir) in existing,
                               GoAvailable(probe), argv);
            Run(Resolving, events) ==
              if plan.NoCandidate? then Some(Failed(plan.status))
              else Some(Exited(LaunchOf(plan), childExit))
    ensures ProbeCount(events) == (if BinaryPath(platform, scriptDir) in existing then 0 else 1)
    ensures LaunchCount(events) <= 1
    ensures events[|events| - 1] ==
              if LaunchCount(events) == 1 then ExitWith(childExit) else ExitWith(Some(1))
    ensures ProbesAre(events, Launch(OnSearchPath("go"), ["version"], true))
  {
    var binaryName := BinaryName(platform);
    var binaryPath := Resolve(scriptDir, ["..", "build", binaryName]);

    if binaryPath in existing {
      var child := Launch(Executable(binaryPath), UserArgs(argv), false);
      events := [LaunchSpawned(child)] + [ChildExited(childExit), ExitWith(childExit)];
      DirectTrace(child, childExit);
      return;
    }

    events := [ProbeSpawned(GoVersionProbe)];
    var hasGo := GoAvailable(probe);
    if !hasGo {
      events := events + ErrorLines(Diagnostic) + [ExitWith(Some(1))];
      FailureTrace(GoVersionProbe, Diagnostic, 1);
      return;
    }

    var goFile := Resolve(scriptDir, ["..", "cmd", ExecutableBase, "main.go"]);
    var args := ["run", Render(goFile)] + UserArgs(argv);
    var child := Launch(OnSearchPath("go"), args, true);
    events := events + [LaunchSpawned(child)] + [ChildExited(childExit), ExitWith(childExit)];
    FallbackTrace(GoVersionProbe, child, childExit);
  }
}
