/** The observable life of one launcher run: which processes it spawns,
    what it writes to standard error and how it exits, and the terminal
    state machine those events must follow:
    Resolving -> (Probing ->) Spawned -> Relaying -> Exited, or
    Resolving -> Probing -> Reporting -> Failed. */
module Lifecycle {
  import opened Paths

  datatype Option<T> = None | Some(value: T)

  /** What a spawn starts: a file given by its path, or a name the shell
      looks up on the search path. */
  datatype Command = Executable(path: Path) | OnSearchPath(name: string)

  /** One `spawn(command, args, { shell })` call. */
  datatype Launch = Launch(command: Command, args: seq<string>, shell: bool)

  /** A child's exit code; `None` is the `null` Node reports when the child
      was ended by a signal. */
  type ExitCode = Option<int>

  datatype Event =
    | ProbeSpawned(probe: Launch)     // the toolchain probe, waited on and discarded
    | LaunchSpawned(launch: Launch)   // the child that stands in for the launcher
    | ChildExited(exit: ExitCode)     // the launched child's `exit` event
    | ErrorLine(text: string)         // one line written to standard error
    | ExitWith(code: ExitCode)        // the launcher's own `process.exit`

  datatype Phase =
    | Resolving
    | Probing
    | Reporting
    | Spawned(launch: Launch)
    | Relaying(launch: Launch, code: ExitCode)
    | Exited(launch: Launch, code: ExitCode)
    | Failed(status: int)

  predicate Launched(ph: Phase) {
    ph.Spawned? || ph.Relaying? || ph.Exited?
  }

  predicate Terminal(ph: Phase) {
    ph.Exited? || ph.Failed?
  }

  /** The transition an event causes, or `None` when the event is not
      allowed in that phase. */
  function Step(ph: Phase, e: Event): (r: Option<Phase>)
    ensures Terminal(ph) ==> r == None
    ensures r.Some? ==> r.value != Resolving
    ensures r.Some? && Launched(ph) ==> Launched(r.value) && r.value.launch == ph.launch
    ensures r.Some? && r.value.Failed? ==> e == ExitWith(Some(r.value.status))
    ensures r.Some? && r.value.Exited? ==>
              ph == Relaying(r.value.launch, r.value.code) && e == ExitWith(r.value.code)
  {
    match ph
    case Resolving =>
      (match e
       case ProbeSpawned(_) => Some(Probing)
       case LaunchSpawned(l) => Some(Spawned(l))
       case _ => None)
    case Probing =>
      (match e
       case LaunchSpawned(l) => Some(Spawned(l))
       case ErrorLine(_) => Some(Reporting)
       case _ => None)
    case Reporting =>
      (match e
       case ErrorLine(_) => Some(Reporting)
       case ExitWith(Some(k)) => Some(Failed(k))
       case _ => None)
    case Spawned(l) =>
      (match e
       case ChildExited(c) => Some(Relaying(l, c))
       case _ => None)
    case Relaying(l, c) =>
      (match e
       case ExitWith(k) => if k == c then Some(Exited(l, c)) else None
       case _ => None)
    case _ => None
  }

  /** The phase after a whole trace, or `None` if some event is refused. */
  function Run(ph: Phase, evs: seq<Event>): Option<Phase>
    decreases |evs|
  {
    if evs == [] then Some(ph)
    else match Step(ph, evs[0])
      case None => None
      case Some(next) => Run(next, evs[1..])
  }

  function LaunchCount(evs: seq<Event>): nat
    decreases |evs|
  {
    if evs == [] then 0
    else (if evs[0].LaunchSpawned? then 1 else 0) + LaunchCount(evs[1..])
  }

  function ProbeCount(evs: seq<Event>): nat
    decreases |evs|
  {
    if evs == [] then 0
    else (if evs[0].ProbeSpawned? then 1 else 0) + ProbeCount(evs[1..])
  }

  /** Every probe spawned in `evs` is `probe`. */
  predicate ProbesAre(evs: seq<Event>, probe: Launch) {
    forall i | 0 <= i < |evs| && evs[i].ProbeSpawned? :: evs[i].probe == probe
  }

  /** Every line of `lines`, in order, as error events. */
  function ErrorLines(lines: seq<string>): (evs: seq<Event>)
    ensures |evs| == |lines|
    ensures forall i | 0 <= i < |evs| :: evs[i] == ErrorLine(lines[i])
    decreases |lines|
  {
    if lines == [] then [] else [ErrorLine(lines[0])] + ErrorLines(lines[1..])
  }

  /** Running a trace in two pieces is running the whole. */
  lemma {:induction false} RunAppend(ph: Phase, a: seq<Event>, b: seq<Event>)
    requires Run(ph, a).Some?
    ensures Run(ph, a + b) == Run(Run(ph, a).value, b)
    decreases |a|
  {
    if a == [] {
      assert a + b == b;
    } else {
      assert (a + b)[0] == a[0];
      assert (a + b)[1..] == a[1..] + b;
      RunAppend(Step(ph, a[0]).value, a[1..], b);
    }
  }

  /** Error lines keep a reporting run reporting. */
  lemma {:induction false} ReportingAbsorbsErrorLines(lines: seq<string>)
    ensures Run(Reporting, ErrorLines(lines)) == Some(Reporting)
    decreases |lines|
  {
    if lines != [] {
      ReportingAbsorbsErrorLines(lines[1..]);
    }
  }

  /** A terminal phase accepts no further event. */
  lemma TerminalAcceptsNothing(ph: Phase, evs: seq<Event>)
    requires Terminal(ph)
    requires Run(ph, evs).Some?
    ensures evs == []
  {
  }

  /** Once a child has been launched the run never goes back: no further
      probe and no further launch is accepted, and the launch stays the
      same through to the exit. */
  lemma {:induction false} NoReturnAfterLaunch(ph: Phase, evs: seq<Event>)
    requires Launched(ph)
    requires Run(ph, evs).Some?
    ensures Launched(Run(ph, evs).value)
    ensures Run(ph, evs).value.launch == ph.launch
    ensures LaunchCount(evs) == 0 && ProbeCount(evs) == 0
    decreases |evs|
  {
    if evs != [] {
      NoReturnAfterLaunch(Step(ph, evs[0]).value, evs[1..]);
    }
  }

  /** A run from any phase launches at most one child, none if one was
      already launched, and ends launched exactly when it launched one or
      had already. */
  lemma {:induction false} AtMostOneLaunch(ph: Phase, evs: seq<Event>)
    requires Run(ph, evs).Some?
    ensures LaunchCount(evs) <= (if Launched(ph) then 0 else 1)
    ensures Launched(Run(ph, evs).value) <==> Launched(ph) || LaunchCount(evs) == 1
    decreases |evs|
  {
    if Launched(ph) {
      NoReturnAfterLaunch(ph, evs);
    } else if evs != [] {
      AtMostOneLaunch(Step(ph, evs[0]).value, evs[1..]);
    }
  }

  /** A run that relays a child's code ends by exiting with that very code. */
  lemma RelayingEnds(l: Launch, c: ExitCode, evs: seq<Event>)
    requires Run(Relaying(l, c), evs).Some? && Run(Relaying(l, c), evs).value.Exited?
    ensures evs == [ExitWith(c)] && Run(Relaying(l, c), evs).value == Exited(l, c)
  {
    assert evs != [];
    TerminalAcceptsNothing(Exited(l, c), evs[1..]);
  }

  /** A run that ends exited ends with the child's exit event followed by
      the launcher exiting with exactly the code that event carried. */
  lemma {:induction false} ExitCodeRelayed(ph: Phase, evs: seq<Event>)
    requires !ph.Relaying? && !ph.Exited?
    requires Run(ph, evs).Some? && Run(ph, evs).value.Exited?
    ensures var code := Run(ph, evs).value.code;
            |evs| >= 2 && evs[|evs| - 2] == ChildExited(code) && evs[|evs| - 1] == ExitWith(code)
    decreases |evs|
  {
    if evs == [] {
      assert false;
    } else {
      var next := Step(ph, evs[0]).value;
      if next.Relaying? {
        RelayingEnds(next.launch, next.code, evs[1..]);
        assert evs == [ChildExited(next.code), ExitWith(next.code)];
      } else if next.Exited? {
        assert false;
      } else {
        ExitCodeRelayed(next, evs[1..]);
        assert evs[1..][|evs[1..]| - 1] == evs[|evs| - 1];
        assert evs[1..][|evs[1..]| - 2] == evs[|evs| - 2];
      }
    }
  }

  /** A run that ends failed spawned no child, wrote at least one error
      line (unless it was already reporting) and exited with the failure
      status. */
  lemma {:induction false} FailureIsReported(ph: Phase, evs: seq<Event>)
    requires !Terminal(ph) && !Launched(ph)
    requires Run(ph, evs).Some? && Run(ph, evs).value.Failed?
    ensures LaunchCount(evs) == 0
    ensures ph != Reporting ==> exists i | 0 <= i < |evs| :: evs[i].ErrorLine?
    ensures evs != [] && evs[|evs| - 1] == ExitWith(Some(Run(ph, evs).value.status))
    decreases |evs|
  {
    if evs == [] {
      assert false;
    } else {
      var next := Step(ph, evs[0]).value;
      if next.Failed? {
        TerminalAcceptsNothing(next, evs[1..]);
      } else if Launched(next) {
        NoReturnAfterLaunch(next, evs[1..]);
        assert false;
      } else {
        FailureIsReported(next, evs[1..]);
        assert evs[1..][|evs[1..]| - 1] == evs[|evs| - 1];
        if ph != Reporting && next == Reporting {
          assert evs[0].ErrorLine?;
        } else if ph != Reporting {
          var i :| 0 <= i < |evs[1..]| && evs[1..][i].ErrorLine?;
          assert evs[i + 1].ErrorLine?;
        }
      }
    }
  }

  lemma {:induction false} NoProbeAmongErrorLines(lines: seq<string>)
    ensures ProbeCount(ErrorLines(lines)) == 0
    ensures LaunchCount(ErrorLines(lines)) == 0
    decreases |lines|
  {
    if lines != [] {
      NoProbeAmongErrorLines(lines[1..]);
    }
  }

  lemma {:induction false} CountsAppend(a: seq<Event>, b: seq<Event>)
    ensures ProbeCount(a + b) == ProbeCount(a) + ProbeCount(b)
    ensures LaunchCount(a + b) == LaunchCount(a) + LaunchCount(b)
    decreases |a|
  {
    if a == [] {
      assert a + b == b;
    } else {
      assert (a + b)[1..] == a[1..] + b;
      CountsAppend(a[1..], b);
    }
  }

  /** The tail of every launching run: the child exits, and the launcher
      exits with the child's code. */
  lemma RelayTrace(child: Launch, code: ExitCode)
    ensures var evs := [ChildExited(code), ExitWith(code)];
            Run(Spawned(child), evs) == Some(Exited(child, code)) &&
            ProbeCount(evs) == 0 && LaunchCount(evs) == 0
  {
    var evs := [ChildExited(code), ExitWith(code)];
    var rest := [ExitWith(code)];
    assert evs[1..] == rest && rest[1..] == [];
    assert Run(Relaying(child, code), rest) == Some(Exited(child, code));
    assert ProbeCount(rest) == 0 && LaunchCount(rest) == 0;
  }

  /** The trace of a run that finds the binary: launch it, see it exit, then
      exit with its code. */
  lemma DirectTrace(child: Launch, code: ExitCode)
    ensures var evs := [LaunchSpawned(child)] + [ChildExited(code), ExitWith(code)];
            Run(Resolving, evs) == Some(Exited(child, code)) &&
            ProbeCount(evs) == 0 && LaunchCount(evs) == 1 && ProbesAre(evs, child)
  {
    var evs := [LaunchSpawned(child)] + [ChildExited(code), ExitWith(code)];
    assert evs[1..] == [ChildExited(code), ExitWith(code)];
    RelayTrace(child, code);
  }

  /** The trace of a run that probes the toolchain and then launches it. */
  lemma FallbackTrace(probe: Launch, child: Launch, code: ExitCode)
    ensures var evs := [ProbeSpawned(probe)] + [LaunchSpawned(child)] + [ChildExited(code), ExitWith(code)];
            Run(Resolving, evs) == Some(Exited(child, code)) &&
            ProbeCount(evs) == 1 && LaunchCount(evs) == 1 && ProbesAre(evs, probe)
  {
    var evs := [ProbeSpawned(probe)] + [LaunchSpawned(child)] + [ChildExited(code), ExitWith(code)];
    assert evs[1..] == [LaunchSpawned(child)] + [ChildExited(code), ExitWith(code)];
    DirectTrace(child, code);
    assert Run(Probing, evs[1..]) == Some(Exited(child, code));
  }

  /** The trace of a run that probes, reports the non-empty `lines` and
      exits with `status`. */
  lemma FailureTrace(probe: Launch, lines: seq<string>, status: int)
    requires lines != []
    ensures var evs := [ProbeSpawned(probe)] + ErrorLines(lines) + [ExitWith(Some(status))];
            Run(Resolving, evs) == Some(Failed(status)) &&
            ProbeCount(evs) == 1 && LaunchCount(evs) == 0 && ProbesAre(evs, probe)
  {
    var head := [ProbeSpawned(probe)];
    var report := ErrorLines(lines);
    var exit := [ExitWith(Some(status))];
    ReportingAbsorbsErrorLines(lines[1..]);
    assert report[1..] == ErrorLines(lines[1..]);
    assert Run(Probing, report) == Some(Reporting);
    RunAppend(Resolving, head, report);
    RunAppend(Resolving, head + report, exit);
    NoProbeAmongErrorLines(lines);
    CountsAppend(head, report);
    CountsAppend(head + report, exit);
    var evs := head + report + exit;
    forall i | 1 <= i < |evs| ensures !evs[i].ProbeSpawned? {
      if i < |evs| - 1 { assert evs[i] == report[i - 1]; }
    }
  }
}
