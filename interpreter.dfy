/**
 * The command loop over commands that have already been parsed: each command is
 * dispatched to the service, and processing stops at the first Exit.
 */
module Interpreter {
  import opened Headings
  import Machine
  import opened Simulator

  /** A parsed command line; Unknown stands for every line whose first field names no command. */
  datatype Command =
    | Place(x: int, y: int, direction: Direction)
    | Move
    | Left
    | Right
    | Report
    | Exit
    | Unknown

  /** The state after some commands and the reports they printed, in order. */
  datatype Outcome = Outcome(state: Machine.RobotState, reports: seq<string>)

  /** The effect of dispatching one command. Exit and Unknown fall to the default arm and change nothing. */
  function Step(s: Machine.RobotState, c: Command): Outcome {
    match c
    case Place(x, y, d) => Outcome(Machine.Place(s, x, y, d), [])
    case Move => Outcome(Machine.Move(s), [])
    case Left => Outcome(Machine.Left(s), [])
    case Right => Outcome(Machine.Right(s), [])
    case Report => Outcome(s, [Machine.Report(s)])
    case Exit => Outcome(s, [])
    case Unknown => Outcome(s, [])
  }

  /** Dispatch the commands in order, stopping before the first Exit. */
  function Run(s: Machine.RobotState, cmds: seq<Command>): Outcome
    decreases |cmds|
  {
    if cmds == [] || cmds[0].Exit? then Outcome(s, [])
    else
      var first := Step(s, cmds[0]);
      var rest := Run(first.state, cmds[1..]);
      Outcome(rest.state, first.reports + rest.reports)
  }

  /** Running a command followed by more commands is one Step followed by the rest. */
  lemma RunCons(s: Machine.RobotState, c: Command, rest: seq<Command>)
    requires !c.Exit?
    ensures var first := Step(s, c); var r := Run(first.state, rest);
            Run(s, [c] + rest) == Outcome(r.state, first.reports + r.reports)
  {
    assert ([c] + rest)[1..] == rest;
  }

  predicate NoExit(cmds: seq<Command>) {
    forall i :: 0 <= i < |cmds| ==> !cmds[i].Exit?
  }

  /** Any run of commands keeps a placed robot on the table. */
  lemma {:induction false} RunPreservesOnGrid(s: Machine.RobotState, cmds: seq<Command>)
    requires Machine.OnGrid(s)
    ensures Machine.OnGrid(Run(s, cmds).state)
    decreases |cmds|
  {
    if cmds != [] && !cmds[0].Exit? {
      match cmds[0] {
        case Place(x, y, d) => Machine.PlacePreservesOnGrid(s, x, y, d);
        case Move => Machine.MovePreservesOnGrid(s);
        case Left => Machine.TurnsPreserveOnGrid(s);
        case Right => Machine.TurnsPreserveOnGrid(s);
        case _ =>
      }
      RunPreservesOnGrid(Step(s, cmds[0]).state, cmds[1..]);
    }
  }

  /** Running a, then b from where a left off, is running a + b, when a holds no Exit. */
  lemma {:induction false} RunConcat(s: Machine.RobotState, a: seq<Command>, b: seq<Command>)
    requires NoExit(a)
    ensures var ra := Run(s, a); var rb := Run(ra.state, b);
            Run(s, a + b) == Outcome(rb.state, ra.reports + rb.reports)
    decreases |a|
  {
    if a == [] {
      assert a + b == b;
    } else {
      var first := Step(s, a[0]);
      assert (a + b)[0] == a[0];
      assert (a + b)[1..] == a[1..] + b;
      RunConcat(first.state, a[1..], b);
    }
  }

  /** Nothing after the first Exit is processed. */
  lemma RunStopsAtFirstExit(s: Machine.RobotState, a: seq<Command>, b: seq<Command>)
    requires NoExit(a)
    ensures Run(s, a + [Exit] + b) == Run(s, a)
  {
    RunConcat(s, a, [Exit] + b);
    assert a + [Exit] + b == a + ([Exit] + b);
  }

  /** Two reports in a row print the same text and leave the state alone. */
  lemma ReportTwice(s: Machine.RobotState)
    ensures Run(s, [Report, Report]) == Outcome(s, [Machine.Report(s), Machine.Report(s)])
  {
  }

  /** Dispatch one command to the service; returns the text it prints from a report. */
  method ProcessCommand(service: RobotSimulatorService, c: Command) returns (reports: seq<string>)
    modifies service.robot
    ensures Outcome(service.Snapshot(), reports) == Step(old(service.Snapshot()), c)
  {
    reports := [];
    match c
    case Place(x, y, d) =>
      var _ := service.Place(x, y, d);
    case Move =>
      service.Move();
    case Left =>
      service.Left();
    case Right =>
      service.Right();
    case Report =>
      reports := [service.Report()];
    case Exit =>
    case Unknown =>
  }

  /** Process the commands one by one, stopping at the first Exit. */
  method ProcessCommands(service: RobotSimulatorService, cmds: seq<Command>) returns (reports: seq<string>)
    modifies service.robot
    ensures Outcome(service.Snapshot(), reports) == Run(old(service.Snapshot()), cmds)
  {
    reports := [];
    var i := 0;
    while i < |cmds|
      invariant 0 <= i <= |cmds|
      invariant var rest := Run(service.Snapshot(), cmds[i..]);
                Run(old(service.Snapshot()), cmds) == Outcome(rest.state, reports + rest.reports)
    {
      if cmds[i].Exit? {
        break;
      }
      var printed := ProcessCommand(service, cmds[i]);
      assert cmds[i..][1..] == cmds[i + 1..];
      reports := reports + printed;
      i := i + 1;
    }
  }
}
