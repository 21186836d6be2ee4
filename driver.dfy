/**
  The driver part of the pipeline script: it creates the dat directory, then
  runs the eight stage commands in order. A stage that exits with a non-zero
  status is only reported and the next stage still runs; a stage whose
  program cannot be started at all raises an error nobody catches, which
  ends the script. The outside world is represented by oracles: whether
  the directory can be created, and the outcome of each stage.
 */
module Driver {
  import opened Argv
  import opened Frodock

  /** What happened when one stage command was handed to the operating system. */
  datatype Outcome =
    | Exited(code: int)  // the program ran and ended with this status
    | LaunchFailed       // the program could not be started (an uncaught OS error)

  /** What the script observably does, in order. */
  datatype Event =
    | MadeDirs(path: string)                     // the dat directory exists from here on
    | Attempted(argv: seq<string>)               // a stage command was echoed and started
    | Warned(argv: seq<string>, status: int)     // a stage ended with a non-zero status
    | Finished                                   // the closing banner: every stage was started

  /** Creating a directory tree fails for the empty path, and otherwise as the environment decides. */
  predicate MakeDirsSucceeds(path: string, environmentAllows: bool) {
    path != "" && environmentAllows
  }

  /** The events of one `execute` call that returned. */
  function StageEvents(cmd: seq<string>, code: int): seq<Event> {
    [Attempted(cmd)] + (if code != 0 then [Warned(cmd, code)] else [])
  }

  /**
    Running `cmds` in order against their outcomes: the events produced and
    whether every call returned. A launch failure is the last event.
   */
  function Run(cmds: seq<seq<string>>, outs: seq<Outcome>): (seq<Event>, bool)
    requires |cmds| == |outs|
    decreases |cmds|
  {
    if cmds == [] then ([], true)
    else match outs[0]
      case LaunchFailed => ([Attempted(cmds[0])], false)
      case Exited(code) =>
        var rest := Run(cmds[1..], outs[1..]);
        (StageEvents(cmds[0], code) + rest.0, rest.1)
  }

  /**
    The observable behaviour of the script body for the given stage commands:
    the dat directory is created, then the commands run, then the completion
    banner is printed if they all returned; and whether the body returned.
   */
  function Script(datDir: string, cmds: seq<seq<string>>, dirAllowed: bool, outs: seq<Outcome>): (seq<Event>, bool)
    requires |cmds| == |outs|
  {
    if !MakeDirsSucceeds(datDir, dirAllowed) then ([], false)
    else
      var (events, completed) := Run(cmds, outs);
      ([MadeDirs(datDir)] + events + (if completed then [Finished] else []), completed)
  }

  /** The whole observable behaviour of one run, and whether it returned normally. */
  function Trace(i: Inputs, dirAllowed: bool, outs: seq<Outcome>): (seq<Event>, bool)
    requires |outs| == 8
  {
    ProgramOrder(i);
    Script(i.datDir, Commands(i), dirAllowed, outs)
  }

  /** Runs the commands one after the other, stopping only when one cannot be started. */
  method ExecuteAll(cmds: seq<seq<string>>, outs: seq<Outcome>) returns (events: seq<Event>, completed: bool)
    requires |cmds| == |outs|
    ensures (events, completed) == Run(cmds, outs)
  {
    events, completed := [], true;
    var k := 0;
    while k < |cmds| && completed
      invariant 0 <= k <= |cmds|
      invariant completed ==>
        events + Run(cmds[k..], outs[k..]).0 == Run(cmds, outs).0 && Run(cmds[k..], outs[k..]).1 == Run(cmds, outs).1
      invariant !completed ==> (events, completed) == Run(cmds, outs)
      decreases |cmds| - k
    {
      assert cmds[k..][1..] == cmds[k + 1..] && outs[k..][1..] == outs[k + 1..];
      if outs[k].LaunchFailed? {
        events := events + [Attempted(cmds[k])];
        completed := false;
      } else {
        events := events + StageEvents(cmds[k], outs[k].code);
      }
      k := k + 1;
    }
    if completed {
      assert cmds[k..] == [] && outs[k..] == [];
      assert events + [] == events;
    }
  }

  /**
    One call of the pipeline: create the dat directory, then run the eight
    stage commands, then report completion.
   */
  method RunFrodock(i: Inputs, dirAllowed: bool, outs: seq<Outcome>) returns (events: seq<Event>, completed: bool)
    requires |outs| == 8
    ensures (events, completed) == Trace(i, dirAllowed, outs)
  {
    ProgramOrder(i);
    events, completed := RunScript(i.datDir, Commands(i), dirAllowed, outs);
  }

  method RunScript(datDir: string, cmds: seq<seq<string>>, dirAllowed: bool, outs: seq<Outcome>)
    returns (events: seq<Event>, completed: bool)
    requires |cmds| == |outs|
    ensures (events, completed) == Script(datDir, cmds, dirAllowed, outs)
  {
    if !MakeDirsSucceeds(datDir, dirAllowed) {
      return [], false;
    }
    var stageEvents;
    stageEvents, completed := ExecuteAll(cmds, outs);
    events := [MadeDirs(datDir)] + stageEvents + (if completed then [Finished] else []);
  }

  /**
    The script entry point: exactly six user arguments (seven with the script
    name), otherwise exit status 1 before anything else happens. `np` is the
    processor count already read from the fifth argument. An error that
    escapes the pipeline ends the script with status 1.
   */
  method CommandLine(argv: seq<string>, np: int, dirAllowed: bool, outs: seq<Outcome>)
    returns (status: int, events: seq<Event>)
    requires |outs| == 8
    ensures |argv| != 7 ==> status == 1 && events == []
    ensures |argv| == 7 ==>
      var (trace, completed) := Trace(Inputs(argv[1], argv[2], argv[3], argv[4], np, argv[6]), dirAllowed, outs);
      events == trace && status == (if completed then 0 else 1)
  {
    if |argv| != 7 {
      return 1, [];
    }
    var completed;
    events, completed := RunFrodock(Inputs(argv[1], argv[2], argv[3], argv[4], np, argv[6]), dirAllowed, outs);
    status := if completed then 0 else 1;
  }

  /** The commands started, in order. */
  function Attempts(events: seq<Event>): seq<seq<string>> {
    if events == [] then []
    else (if events[0].Attempted? then [events[0].argv] else []) + Attempts(events[1..])
  }

  /** The warnings given, in order. */
  function Warnings(events: seq<Event>): seq<(seq<string>, int)> {
    if events == [] then []
    else (if events[0].Warned? then [(events[0].argv, events[0].status)] else []) + Warnings(events[1..])
  }

  /** The commands whose outcome is a non-zero exit, with that status, in order. */
  function Failing(cmds: seq<seq<string>>, outs: seq<Outcome>): seq<(seq<string>, int)>
    requires |cmds| == |outs|
    decreases |cmds|
  {
    if cmds == [] then []
    else (if outs[0].Exited? && outs[0].code != 0 then [(cmds[0], outs[0].code)] else []) + Failing(cmds[1..], outs[1..])
  }

  predicate AllLaunched(outs: seq<Outcome>) {
    forall k :: 0 <= k < |outs| ==> outs[k].Exited?
  }

  lemma {:induction false} AttemptsAppend(a: seq<Event>, b: seq<Event>)
    ensures Attempts(a + b) == Attempts(a) + Attempts(b)
    ensures Warnings(a + b) == Warnings(a) + Warnings(b)
    decreases |a|
  {
    if a != [] {
      assert (a + b)[1..] == a[1..] + b;
      AttemptsAppend(a[1..], b);
    } else {
      assert a + b == b;
    }
  }

  /**
    Exit statuses never stop the run: when every command can be started,
    every command is attempted in order, the run completes, and exactly the
    non-zero exits are warned about.
   */
  lemma {:induction false} RunAllLaunched(cmds: seq<seq<string>>, outs: seq<Outcome>)
    requires |cmds| == |outs| && AllLaunched(outs)
    ensures Run(cmds, outs).1
    ensures Attempts(Run(cmds, outs).0) == cmds
    ensures Warnings(Run(cmds, outs).0) == Failing(cmds, outs)
    decreases |cmds|
  {
    if cmds != [] {
      var code := outs[0].code;
      assert AllLaunched(outs[1..]) by {
        forall k | 0 <= k < |outs[1..]| ensures outs[1..][k].Exited? {
          assert outs[1..][k] == outs[k + 1];
        }
      }
      RunAllLaunched(cmds[1..], outs[1..]);
      var head := StageEvents(cmds[0], code);
      AttemptsAppend(head, Run(cmds[1..], outs[1..]).0);
      assert Attempts(head) == [cmds[0]];
      assert Warnings(head) == (if code != 0 then [(cmds[0], code)] else []);
    }
  }

  /** A run completes exactly when every command can be started. */
  lemma {:induction false} RunCompletes(cmds: seq<seq<string>>, outs: seq<Outcome>)
    requires |cmds| == |outs|
    ensures Run(cmds, outs).1 <==> AllLaunched(outs)
    decreases |cmds|
  {
    if cmds != [] && outs[0].Exited? {
      RunCompletes(cmds[1..], outs[1..]);
      assert AllLaunched(outs) <==> AllLaunched(outs[1..]) by {
        if AllLaunched(outs[1..]) {
          forall k | 0 <= k < |outs| ensures outs[k].Exited? {
            if k > 0 { assert outs[k] == outs[1..][k - 1]; }
          }
        }
        if AllLaunched(outs) {
          forall k | 0 <= k < |outs[1..]| ensures outs[1..][k].Exited? {
            assert outs[1..][k] == outs[k + 1];
          }
        }
      }
    }
  }

  /**
    When the first command that cannot be started is the `k`-th, exactly the
    commands up to and including it are attempted, exactly the non-zero exits
    before it are warned about, and the run does not complete.
   */
  lemma {:induction false} RunStopsAtLaunchFailure(cmds: seq<seq<string>>, outs: seq<Outcome>, k: nat)
    requires |cmds| == |outs| && k < |outs|
    requires outs[k].LaunchFailed? && AllLaunched(outs[..k])
    ensures !Run(cmds, outs).1
    ensures Attempts(Run(cmds, outs).0) == cmds[..k + 1]
    ensures Warnings(Run(cmds, outs).0) == Failing(cmds[..k], outs[..k])
    decreases k
  {
    if k == 0 {
      assert Attempts([Attempted(cmds[0])]) == [cmds[0]];
      assert Warnings([Attempted(cmds[0])]) == [];
      assert cmds[..1] == [cmds[0]];
    } else {
      assert outs[0] == outs[..k][0];
      var code := outs[0].code;
      assert AllLaunched(outs[1..][..k - 1]) by {
        var tail := outs[1..][..k - 1];
        forall j | 0 <= j < k - 1 ensures tail[j].Exited? {
          assert tail[j] == outs[..k][j + 1];
        }
      }
      assert outs[1..][k - 1] == outs[k];
      RunStopsAtLaunchFailure(cmds[1..], outs[1..], k - 1);
      var head := StageEvents(cmds[0], code);
      AttemptsAppend(head, Run(cmds[1..], outs[1..]).0);
      assert Attempts(head) == [cmds[0]];
      assert Warnings(head) == (if code != 0 then [(cmds[0], code)] else []);
      assert [cmds[0]] + cmds[1..][..k] == cmds[..k + 1];
      assert cmds[..k][1..] == cmds[1..][..k - 1] && outs[..k][1..] == outs[1..][..k - 1];
    }
  }

  lemma ScriptRunsEveryCommand(datDir: string, cmds: seq<seq<string>>, dirAllowed: bool, outs: seq<Outcome>)
    requires |cmds| == |outs| && MakeDirsSucceeds(datDir, dirAllowed) && AllLaunched(outs)
    ensures var (events, completed) := Script(datDir, cmds, dirAllowed, outs);
      && completed
      && events[0] == MadeDirs(datDir)
      && events[|events| - 1] == Finished
      && Attempts(events) == cmds
      && Warnings(events) == Failing(cmds, outs)
  {
    RunAllLaunched(cmds, outs);
    var stageEvents := Run(cmds, outs).0;
    AttemptsAppend([MadeDirs(datDir)], stageEvents);
    AttemptsAppend([MadeDirs(datDir)] + stageEvents, [Finished]);
  }

  /**
    The whole script, when the dat directory can be created and every stage
    can be started: the directory is created first, then all eight commands
    run in order whatever their exit statuses, exactly the non-zero ones are
    warned about, and the completion banner comes last.
   */
  lemma PipelineRunsEveryStage(i: Inputs, dirAllowed: bool, outs: seq<Outcome>)
    requires |outs| == 8 && MakeDirsSucceeds(i.datDir, dirAllowed) && AllLaunched(outs)
    ensures var (events, completed) := Trace(i, dirAllowed, outs);
      && completed
      && events[0] == MadeDirs(i.datDir)
      && events[|events| - 1] == Finished
      && Attempts(events) == Commands(i)
      && Warnings(events) == Failing(Commands(i), outs)
  {
    ProgramOrder(i);
    ScriptRunsEveryCommand(i.datDir, Commands(i), dirAllowed, outs);
  }

  /** Nothing runs when the dat directory cannot be created, and the script fails. */
  lemma PipelineNeedsDatDir(i: Inputs, dirAllowed: bool, outs: seq<Outcome>)
    requires |outs| == 8 && !MakeDirsSucceeds(i.datDir, dirAllowed)
    ensures Attempts(Trace(i, dirAllowed, outs).0) == [] && !Trace(i, dirAllowed, outs).1
  {
  }

  lemma ScriptStopsAtLaunchFailure(datDir: string, cmds: seq<seq<string>>, dirAllowed: bool, outs: seq<Outcome>, k: nat)
    requires |cmds| == |outs| && MakeDirsSucceeds(datDir, dirAllowed)
    requires k < |outs| && outs[k].LaunchFailed? && AllLaunched(outs[..k])
    ensures var (events, completed) := Script(datDir, cmds, dirAllowed, outs);
      && !completed
      && events[0] == MadeDirs(datDir)
      && Finished !in events
      && Attempts(events) == cmds[..k + 1]
      && Warnings(events) == Failing(cmds[..k], outs[..k])
  {
    RunStopsAtLaunchFailure(cmds, outs, k);
    var stageEvents := Run(cmds, outs).0;
    AttemptsAppend([MadeDirs(datDir)], stageEvents);
    assert Attempts([MadeDirs(datDir)]) == [] && Warnings([MadeDirs(datDir)]) == [];
    assert [MadeDirs(datDir)] + stageEvents + [] == [MadeDirs(datDir)] + stageEvents;
    NoFinishedInRun(cmds, outs);
  }

  /**
    When command `k` (counting from 0) is the first that cannot be started,
    commands 0 to `k` are attempted after the directory is made, exactly the
    non-zero exits among commands 0 to `k`-1 are warned about, nothing is
    reported as finished, and the script fails.
   */
  lemma PipelineStopsAtLaunchFailure(i: Inputs, dirAllowed: bool, outs: seq<Outcome>, k: nat)
    requires |outs| == 8 && MakeDirsSucceeds(i.datDir, dirAllowed)
    requires k < 8 && outs[k].LaunchFailed? && AllLaunched(outs[..k])
    ensures var (events, completed) := Trace(i, dirAllowed, outs);
      && !completed
      && events[0] == MadeDirs(i.datDir)
      && Finished !in events
      && Attempts(events) == Commands(i)[..k + 1]
      && Warnings(events) == Failing(Commands(i)[..k], outs[..k])
  {
    ProgramOrder(i);
    ScriptStopsAtLaunchFailure(i.datDir, Commands(i), dirAllowed, outs, k);
  }

  lemma {:induction false} NoFinishedInRun(cmds: seq<seq<string>>, outs: seq<Outcome>)
    requires |cmds| == |outs|
    ensures Finished !in Run(cmds, outs).0
    decreases |cmds|
  {
    if cmds != [] && outs[0].Exited? {
      NoFinishedInRun(cmds[1..], outs[1..]);
    }
  }

  /** The script's exit status is 0 exactly when the directory is made and every stage starts. */
  lemma ExitStatus(argv: seq<string>, np: int, dirAllowed: bool, outs: seq<Outcome>)
    requires |argv| == 7 && |outs| == 8
    ensures Trace(Inputs(argv[1], argv[2], argv[3], argv[4], np, argv[6]), dirAllowed, outs).1
      <==> MakeDirsSucceeds(argv[4], dirAllowed) && AllLaunched(outs)
  {
    var i := Inputs(argv[1], argv[2], argv[3], argv[4], np, argv[6]);
    ProgramOrder(i);
    RunCompletes(Commands(i), outs);
  }
}
