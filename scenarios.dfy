/** The documented command sequences, run against the service and against the interpreter. */
module Scenarios {
  import opened Headings
  import Machine
  import opened Simulator
  import opened Interpreter

  /** A new robot reports that it has not been placed. */
  method ReportBeforePlace() returns (report: string)
    ensures report == "Not placed yet"
  {
    var robot := new Robot();
    var service := new RobotSimulatorService(robot);
    report := service.Report();
  }

  /** PLACE 0,0,North then MOVE reports "0,1,North". */
  method PlaceAndMoveNorth() returns (report: string)
    ensures report == "0,1,North"
  {
    var robot := new Robot();
    var service := new RobotSimulatorService(robot);
    var _ := service.Place(0, 0, North);
    service.Move();
    report := service.Report();
    Machine.ReportOnTable(service.Snapshot());
  }

  /** PLACE 0,0,North then LEFT reports "0,0,West". */
  method PlaceAndTurnLeft() returns (report: string)
    ensures report == "0,0,West"
  {
    var robot := new Robot();
    var service := new RobotSimulatorService(robot);
    var _ := service.Place(0, 0, North);
    service.Left();
    report := service.Report();
    Machine.ReportOnTable(service.Snapshot());
  }

  /** PLACE 1,2,East, MOVE, MOVE, LEFT, MOVE reports "3,3,North". */
  method PlaceMoveMoveLeftMove() returns (report: string)
    ensures report == "3,3,North"
  {
    var robot := new Robot();
    var service := new RobotSimulatorService(robot);
    var _ := service.Place(1, 2, East);
    service.Move();
    service.Move();
    service.Left();
    service.Move();
    report := service.Report();
    Machine.ReportOnTable(service.Snapshot());
  }

  /** At the north edge a MOVE north is ignored: PLACE 0,4,North, MOVE reports "0,4,North". */
  method MoveNorthFromEdge() returns (report: string)
    ensures report == "0,4,North"
  {
    var robot := new Robot();
    var service := new RobotSimulatorService(robot);
    var _ := service.Place(0, 4, North);
    service.Move();
    report := service.Report();
    Machine.ReportOnTable(service.Snapshot());
  }

  /** PLACE 2,2,North, three MOVEs (the third is held at the edge), LEFT, MOVE reports "1,4,West". */
  method SequentialMoves() returns (report: string)
    ensures report == "1,4,West"
  {
    var robot := new Robot();
    var service := new RobotSimulatorService(robot);
    var _ := service.Place(2, 2, North);
    service.Move();
    service.Move();
    service.Move();
    service.Left();
    service.Move();
    report := service.Report();
    Machine.ReportOnTable(service.Snapshot());
  }

  /** A rejected placement keeps the earlier one: PLACE 1,1,South then PLACE 5,0,East. */
  method RejectedPlaceKeepsPlacement() returns (ok: bool, report: string)
    ensures !ok && report == "1,1,South"
  {
    var robot := new Robot();
    var service := new RobotSimulatorService(robot);
    var _ := service.Place(1, 1, South);
    ok := service.Place(5, 0, East);
    report := service.Report();
    Machine.ReportOnTable(service.Snapshot());
  }

  /** The second scenario as a command file, with an Exit whose successors are never processed. */
  lemma SequentialMovesAsCommands()
    ensures Run(Machine.Initial, [Place(2, 2, North), Move, Move, Move, Left, Move, Report, Exit, Move, Report]).reports
            == ["1,4,West"]
  {
    var a := [Place(2, 2, North), Move, Move, Move, Left, Move, Report];
    SequentialMovesRun();
    RunStopsAtFirstExit(Machine.Initial, a, [Move, Report]);
    assert a + [Exit] + [Move, Report] == [Place(2, 2, North), Move, Move, Move, Left, Move, Report, Exit, Move, Report];
  }

  /** The commands before the Exit, one Step at a time. */
  lemma SequentialMovesRun()
    ensures Run(Machine.Initial, [Place(2, 2, North), Move, Move, Move, Left, Move, Report]).reports == ["1,4,West"]
  {
    var s6 := Machine.RobotState(1, 4, West, true);
    var s5 := Machine.RobotState(2, 4, West, true);
    var s4 := Machine.RobotState(2, 4, North, true);
    var s2 := Machine.RobotState(2, 3, North, true);
    var s1 := Machine.RobotState(2, 2, North, true);
    Machine.ReportOnTable(s6);
    assert Machine.Report(s6) == "1,4,West";
    RunCons(s6, Report, []);
    RunCons(s5, Move, [Report]);
    RunCons(s4, Left, [Move, Report]);
    RunCons(s4, Move, [Left, Move, Report]);
    RunCons(s2, Move, [Move, Left, Move, Report]);
    RunCons(s1, Move, [Move, Move, Left, Move, Report]);
    RunCons(Machine.Initial, Place(2, 2, North), [Move, Move, Move, Left, Move, Report]);
  }
}
